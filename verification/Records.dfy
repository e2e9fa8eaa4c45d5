/** The four record families and their Redis hashes. */
module Records {
  import opened Common
  import opened Decimal
  import opened References

  datatype ExternalStatus = Waiting | Processing

  datatype UsageStatus = Unused | Used

  datatype ExternalAuthTransaction = ExternalAuthTransaction(
    serviceId: string,
    serviceState: string,
    handoffCodeChallenge: string,
    provider: string,
    providerVerificationData: string,
    createdAt: u64,
    expiresAt: u64,
    status: ExternalStatus)

  datatype CommonSession = CommonSession(
    internalUserId: i32,
    authenticatedAt: u64,
    createdAt: u64,
    expiresAt: u64)

  datatype AuthenticationHandoff = AuthenticationHandoff(
    serviceId: string,
    internalUserId: i32,
    commonSessionLookup: string,
    codeChallenge: string,
    authenticatedAt: u64,
    issuedAt: u64,
    expiresAt: u64,
    status: UsageStatus)

  datatype CommonLogoutTransaction = CommonLogoutTransaction(
    serviceId: string,
    logoutReturnUri: string,
    csrfLookup: string,
    createdAt: u64,
    expiresAt: u64,
    status: UsageStatus)

  /** Hash field names: the ones the code uses, and any other. */
  datatype Field =
    | SERVICE_ID | SERVICE_STATE | HANDOFF_CODE_CHALLENGE | PROVIDER | PROVIDER_VERIFICATION_DATA
    | CREATED_AT | EXPIRES_AT | STATUS | INTERNAL_USER_ID | AUTHENTICATED_AT
    | COMMON_SESSION_LOOKUP | CODE_CHALLENGE | ISSUED_AT | LOGOUT_RETURN_URI | CSRF_LOOKUP
    | OTHER(name: string)

  type Fields = map<Field, string>

  const EXTERNAL_FIELDS: set<Field> :=
    {SERVICE_ID, SERVICE_STATE, HANDOFF_CODE_CHALLENGE, PROVIDER, PROVIDER_VERIFICATION_DATA,
     CREATED_AT, EXPIRES_AT, STATUS}
  const SESSION_FIELDS: set<Field> := {INTERNAL_USER_ID, AUTHENTICATED_AT, CREATED_AT, EXPIRES_AT}
  const HANDOFF_FIELDS: set<Field> :=
    {SERVICE_ID, INTERNAL_USER_ID, COMMON_SESSION_LOOKUP, CODE_CHALLENGE, AUTHENTICATED_AT,
     ISSUED_AT, EXPIRES_AT, STATUS}
  const LOGOUT_FIELDS: set<Field> :=
    {SERVICE_ID, LOGOUT_RETURN_URI, CSRF_LOOKUP, CREATED_AT, EXPIRES_AT, STATUS}

  /** `validate_field_names` and the scripts both count the fields and then ask for each. */
  lemma ExactFields(m: Fields, names: set<Field>)
    ensures m.Keys == names <==> |m| == |names| && names <= m.Keys
  {
    if |m| == |names| && names <= m.Keys {
      if m.Keys != names {
        var extra :| extra in m.Keys && extra !in names;
        SubsetSize(names + {extra}, m.Keys);
      }
    }
  }

  lemma {:induction false} SubsetSize<T>(a: set<T>, b: set<T>)
    requires a <= b
    ensures |a| <= |b|
    decreases a
  {
    if a != {} {
      var x :| x in a;
      SubsetSize(a - {x}, b - {x});
    }
  }

  function ExternalStatusText(s: ExternalStatus): string {
    match s case Waiting => "waiting" case Processing => "processing"
  }

  function ParseExternalStatus(s: string): Option<ExternalStatus> {
    if s == "waiting" then Some(Waiting) else if s == "processing" then Some(Processing) else None
  }

  function UsageStatusText(s: UsageStatus): string {
    match s case Unused => "unused" case Used => "used"
  }

  function ParseUsageStatus(s: string): Option<UsageStatus> {
    if s == "unused" then Some(Unused) else if s == "used" then Some(Used) else None
  }

  lemma StatusTexts()
    ensures forall s :: ParseExternalStatus(ExternalStatusText(s)) == Some(s)
    ensures forall s :: ParseUsageStatus(UsageStatusText(s)) == Some(s)
    ensures "waiting" != "processing" && "unused" != "used"
  {
    assert |"waiting"| != |"processing"| && |"unused"| != |"used"|;
  }

  function EncodeExternal(r: ExternalAuthTransaction): Fields {
    map[SERVICE_ID := r.serviceId, SERVICE_STATE := r.serviceState,
        HANDOFF_CODE_CHALLENGE := r.handoffCodeChallenge, PROVIDER := r.provider,
        PROVIDER_VERIFICATION_DATA := r.providerVerificationData,
        CREATED_AT := PrintNat(r.createdAt), EXPIRES_AT := PrintNat(r.expiresAt),
        STATUS := ExternalStatusText(r.status)]
  }

  function EncodeSession(r: CommonSession): Fields {
    map[INTERNAL_USER_ID := PrintInt(r.internalUserId),
        AUTHENTICATED_AT := PrintNat(r.authenticatedAt),
        CREATED_AT := PrintNat(r.createdAt), EXPIRES_AT := PrintNat(r.expiresAt)]
  }

  function EncodeHandoff(r: AuthenticationHandoff): Fields {
    map[SERVICE_ID := r.serviceId, INTERNAL_USER_ID := PrintInt(r.internalUserId),
        COMMON_SESSION_LOOKUP := r.commonSessionLookup, CODE_CHALLENGE := r.codeChallenge,
        AUTHENTICATED_AT := PrintNat(r.authenticatedAt), ISSUED_AT := PrintNat(r.issuedAt),
        EXPIRES_AT := PrintNat(r.expiresAt), STATUS := UsageStatusText(r.status)]
  }

  function EncodeLogout(r: CommonLogoutTransaction): Fields {
    map[SERVICE_ID := r.serviceId, LOGOUT_RETURN_URI := r.logoutReturnUri,
        CSRF_LOOKUP := r.csrfLookup, CREATED_AT := PrintNat(r.createdAt),
        EXPIRES_AT := PrintNat(r.expiresAt), STATUS := UsageStatusText(r.status)]
  }

  function DecodeExternal(f: Fields): Option<ExternalAuthTransaction> {
    if f.Keys != EXTERNAL_FIELDS then None else
    match (ParseU64(f[CREATED_AT]), ParseU64(f[EXPIRES_AT]), ParseExternalStatus(f[STATUS]))
    case (Some(created), Some(expires), Some(status)) =>
      Some(ExternalAuthTransaction(
             f[SERVICE_ID], f[SERVICE_STATE], f[HANDOFF_CODE_CHALLENGE], f[PROVIDER],
             f[PROVIDER_VERIFICATION_DATA], created, expires, status))
    case _ => None
  }

  function DecodeSession(f: Fields): Option<CommonSession> {
    if f.Keys != SESSION_FIELDS then None else
    match (ParseI32(f[INTERNAL_USER_ID]), ParseU64(f[AUTHENTICATED_AT]),
           ParseU64(f[CREATED_AT]), ParseU64(f[EXPIRES_AT]))
    case (Some(user), Some(authenticated), Some(created), Some(expires)) =>
      Some(CommonSession(user, authenticated, created, expires))
    case _ => None
  }

  function DecodeHandoff(f: Fields): Option<AuthenticationHandoff> {
    if f.Keys != HANDOFF_FIELDS || !IsLookup(f[COMMON_SESSION_LOOKUP]) then None else
    match (ParseI32(f[INTERNAL_USER_ID]), ParseU64(f[AUTHENTICATED_AT]),
           ParseU64(f[ISSUED_AT]), ParseU64(f[EXPIRES_AT]), ParseUsageStatus(f[STATUS]))
    case (Some(user), Some(authenticated), Some(issued), Some(expires), Some(status)) =>
      Some(AuthenticationHandoff(
             f[SERVICE_ID], user, f[COMMON_SESSION_LOOKUP], f[CODE_CHALLENGE],
             authenticated, issued, expires, status))
    case _ => None
  }

  function DecodeLogout(f: Fields): Option<CommonLogoutTransaction> {
    if f.Keys != LOGOUT_FIELDS || !IsLookup(f[CSRF_LOOKUP]) then None else
    match (ParseU64(f[CREATED_AT]), ParseU64(f[EXPIRES_AT]), ParseUsageStatus(f[STATUS]))
    case (Some(created), Some(expires), Some(status)) =>
      Some(CommonLogoutTransaction(
             f[SERVICE_ID], f[LOGOUT_RETURN_URI], f[CSRF_LOOKUP], created, expires, status))
    case _ => None
  }

  /** Every external transaction survives its hash. */
  lemma ExternalRoundTrip(r: ExternalAuthTransaction)
    ensures EncodeExternal(r).Keys == EXTERNAL_FIELDS
    ensures DecodeExternal(EncodeExternal(r)) == Some(r)
  {
    assert EncodeExternal(r).Keys == EXTERNAL_FIELDS;
    ParsePrintU64(r.createdAt);
    ParsePrintU64(r.expiresAt);
    StatusTexts();
  }

  /** Every common session survives its hash. */
  lemma SessionRoundTrip(r: CommonSession)
    ensures EncodeSession(r).Keys == SESSION_FIELDS
    ensures DecodeSession(EncodeSession(r)) == Some(r)
  {
    assert EncodeSession(r).Keys == SESSION_FIELDS;
    ParsePrintI32(r.internalUserId);
    ParsePrintU64(r.authenticatedAt);
    ParsePrintU64(r.createdAt);
    ParsePrintU64(r.expiresAt);
  }

  /** A handoff survives its hash exactly when the session lookup it carries is well formed. */
  lemma HandoffRoundTrip(r: AuthenticationHandoff)
    ensures EncodeHandoff(r).Keys == HANDOFF_FIELDS
    ensures DecodeHandoff(EncodeHandoff(r)) == if IsLookup(r.commonSessionLookup) then Some(r) else None
  {
    var f := EncodeHandoff(r);
    assert f.Keys == HANDOFF_FIELDS;
    assert f[STATUS] == UsageStatusText(r.status) && f[EXPIRES_AT] == PrintNat(r.expiresAt);
    ParsePrintI32(r.internalUserId);
    ParsePrintU64(r.authenticatedAt);
    ParsePrintU64(r.issuedAt);
    ParsePrintU64(r.expiresAt);
    StatusTexts();
  }

  /** A logout transaction survives its hash exactly when its CSRF lookup is well formed. */
  lemma LogoutRoundTrip(r: CommonLogoutTransaction)
    ensures EncodeLogout(r).Keys == LOGOUT_FIELDS
    ensures DecodeLogout(EncodeLogout(r)) == if IsLookup(r.csrfLookup) then Some(r) else None
  {
    assert EncodeLogout(r).Keys == LOGOUT_FIELDS;
    ParsePrintU64(r.createdAt);
    ParsePrintU64(r.expiresAt);
    StatusTexts();
  }

  lemma StatusSpelling(s: string)
    ensures ParseExternalStatus(s).Some? ==> ExternalStatusText(ParseExternalStatus(s).value) == s
    ensures ParseUsageStatus(s).Some? ==> UsageStatusText(ParseUsageStatus(s).value) == s
  {
  }

  /**
    Whatever spelling of its numbers a stored hash uses (signs, leading zeros), re-encoding what it
    decodes to does not change the record; and it gives the same hash back exactly when that spelling
    was canonical already.
  */
  lemma ExternalSpelling(f: Fields)
    requires DecodeExternal(f).Some?
    ensures DecodeExternal(EncodeExternal(DecodeExternal(f).value)) == DecodeExternal(f)
    ensures EncodeExternal(DecodeExternal(f).value) == f <==> Canonical(f[CREATED_AT]) && Canonical(f[EXPIRES_AT])
  {
    ExternalRoundTrip(DecodeExternal(f).value);
    hide PrintNat, ParseU64, Canonical;
    U64Spelling(f[CREATED_AT]);
    U64Spelling(f[EXPIRES_AT]);
    StatusSpelling(f[STATUS]);
    var e := EncodeExternal(DecodeExternal(f).value);
    assert e.Keys == EXTERNAL_FIELDS;
    assert e == f <==> e[CREATED_AT] == f[CREATED_AT] && e[EXPIRES_AT] == f[EXPIRES_AT];
  }

  lemma SessionSpelling(f: Fields)
    requires DecodeSession(f).Some?
    ensures DecodeSession(EncodeSession(DecodeSession(f).value)) == DecodeSession(f)
    ensures EncodeSession(DecodeSession(f).value) == f <==>
            CanonicalInt(f[INTERNAL_USER_ID]) && Canonical(f[AUTHENTICATED_AT]) && Canonical(f[CREATED_AT]) && Canonical(f[EXPIRES_AT])
  {
    SessionRoundTrip(DecodeSession(f).value);
    hide PrintNat, PrintInt, ParseU64, ParseI32, Canonical, CanonicalInt;
    I32Spelling(f[INTERNAL_USER_ID]);
    U64Spelling(f[AUTHENTICATED_AT]);
    U64Spelling(f[CREATED_AT]);
    U64Spelling(f[EXPIRES_AT]);
    var e := EncodeSession(DecodeSession(f).value);
    assert e.Keys == SESSION_FIELDS;
    assert e == f <==> e[INTERNAL_USER_ID] == f[INTERNAL_USER_ID] && e[AUTHENTICATED_AT] == f[AUTHENTICATED_AT]
                       && e[CREATED_AT] == f[CREATED_AT] && e[EXPIRES_AT] == f[EXPIRES_AT];
  }

  lemma HandoffSpelling(f: Fields)
    requires DecodeHandoff(f).Some?
    ensures DecodeHandoff(EncodeHandoff(DecodeHandoff(f).value)) == DecodeHandoff(f)
    ensures EncodeHandoff(DecodeHandoff(f).value) == f <==>
            CanonicalInt(f[INTERNAL_USER_ID]) && Canonical(f[AUTHENTICATED_AT]) && Canonical(f[ISSUED_AT]) && Canonical(f[EXPIRES_AT])
  {
    HandoffRoundTrip(DecodeHandoff(f).value);
    hide PrintNat, PrintInt, ParseU64, ParseI32, Canonical, CanonicalInt, IsLookup;
    I32Spelling(f[INTERNAL_USER_ID]);
    U64Spelling(f[AUTHENTICATED_AT]);
    U64Spelling(f[ISSUED_AT]);
    U64Spelling(f[EXPIRES_AT]);
    StatusSpelling(f[STATUS]);
    var e := EncodeHandoff(DecodeHandoff(f).value);
    assert e.Keys == HANDOFF_FIELDS;
    assert e == f <==> e[INTERNAL_USER_ID] == f[INTERNAL_USER_ID] && e[AUTHENTICATED_AT] == f[AUTHENTICATED_AT]
                       && e[ISSUED_AT] == f[ISSUED_AT] && e[EXPIRES_AT] == f[EXPIRES_AT];
  }

  lemma LogoutSpelling(f: Fields)
    requires DecodeLogout(f).Some?
    ensures DecodeLogout(EncodeLogout(DecodeLogout(f).value)) == DecodeLogout(f)
    ensures EncodeLogout(DecodeLogout(f).value) == f <==> Canonical(f[CREATED_AT]) && Canonical(f[EXPIRES_AT])
  {
    LogoutRoundTrip(DecodeLogout(f).value);
    hide PrintNat, ParseU64, Canonical, IsLookup;
    U64Spelling(f[CREATED_AT]);
    U64Spelling(f[EXPIRES_AT]);
    StatusSpelling(f[STATUS]);
    var e := EncodeLogout(DecodeLogout(f).value);
    assert e.Keys == LOGOUT_FIELDS;
    assert e == f <==> e[CREATED_AT] == f[CREATED_AT] && e[EXPIRES_AT] == f[EXPIRES_AT];
  }
}
