/** The portal's local state: two bounded maps whose expired records are removed lazily. */
module Portal {
  import opened Common
  import opened Decimal
  import opened References

  const LOGIN_START_TTL := 600
  const LOCAL_SESSION_TTL := 28800
  const POST_LOGIN_PATH_MAX := 2048

  datatype LoginStart = LoginStart(
    browserContext: string,
    codeVerifier: string,
    postLoginPath: string,
    createdAt: u64,
    expiresAt: u64)

  datatype LocalSession = LocalSession(
    internalUserId: i32,
    authenticatedAt: u64,
    createdAt: u64,
    expiresAt: u64,
    csrfLookup: Digest)

  datatype LocalStateError =
    | CapacityReached | NotFound | Expired | BrowserContextMismatch | InvalidPostLoginPath | ExpiryOverflow

  datatype Outcome =
    | Refused(error: LocalStateError)
    | Started(state: string, browserContext: string, codeChallenge: string)
    | StartClaimed(start: LoginStart)
    | SessionMade(reference: string)
    | SessionFound(session: LocalSession)
    | NoSession
    | LoggedOut
    | Cleaned

  /** The contents of the two maps. */
  datatype Contents = Contents(starts: map<string, LoginStart>, sessions: map<string, LocalSession>)

  datatype Limits = Limits(starts: nat, sessions: nat)

  function LiveStarts(m: map<string, LoginStart>, now: u64): map<string, LoginStart> {
    map k | k in m && m[k].expiresAt > now :: m[k]
  }

  function LiveSessions(m: map<string, LocalSession>, now: u64): map<string, LocalSession> {
    map k | k in m && m[k].expiresAt > now :: m[k]
  }

  function Live(v: Contents, now: u64): Contents {
    Contents(LiveStarts(v.starts, now), LiveSessions(v.sessions, now))
  }

  predicate ValidPostLoginPath(path: string) {
    && 0 < |path| <= POST_LOGIN_PATH_MAX && path[0] == '/'
    && !(|path| > 1 && path[1] == '/') && '\\' !in path
  }

  /** One use of the state under its lock.  Drawn references are those that the retry loop settled on. */
  datatype Op =
    | CreateStart(path: string, now: u64, state: string, browserContext: string, verifier: string)
    | ClaimStart(state: string, browserContext: string, now: u64)
    | CreateSession(internalUserId: i32, authenticatedAt: u64, now: u64, reference: string, csrf: string)
    | GetSession(reference: string, now: u64)
    | EndSession(reference: string, csrfCookie: string, csrfHeader: string, now: u64)
    | Cleanup(now: u64)

  datatype Step = Step(contents: Contents, outcome: Outcome)

  function CreateStartStep(sha: Hash, lim: Limits, v: Contents, path: string, now: u64,
                           state: string, context: string, verifier: string): Step {
    if !ValidPostLoginPath(path) then Step(v, Refused(InvalidPostLoginPath))
    else if |LiveStarts(v.starts, now)| >= lim.starts then Step(Live(v, now), Refused(CapacityReached))
    else if now + LOGIN_START_TTL > U64_MAX then Step(Live(v, now), Refused(ExpiryOverflow))
    else
      var start := LoginStart(context, verifier, path, now, now + LOGIN_START_TTL);
      Step(Contents(LiveStarts(v.starts, now)[state := start], LiveSessions(v.sessions, now)),
           Started(state, context, Challenge(sha, verifier)))
  }

  function ClaimStartStep(v: Contents, state: string, context: string, now: u64): Step {
    if state !in v.starts then Step(v, Refused(NotFound))
    else if v.starts[state].expiresAt <= now then Step(v.(starts := v.starts - {state}), Refused(Expired))
    else if v.starts[state].browserContext != context then Step(v, Refused(BrowserContextMismatch))
    else Step(v.(starts := v.starts - {state}), StartClaimed(v.starts[state]))
  }

  function CreateSessionStep(sha: Hash, lim: Limits, v: Contents, user: i32, authenticatedAt: u64, now: u64,
                             reference: string, csrf: string): Step {
    if |LiveSessions(v.sessions, now)| >= lim.sessions then Step(Live(v, now), Refused(CapacityReached))
    else if now + LOCAL_SESSION_TTL > U64_MAX then Step(Live(v, now), Refused(ExpiryOverflow))
    else
      var session := LocalSession(user, authenticatedAt, now, now + LOCAL_SESSION_TTL, sha(csrf));
      Step(Contents(LiveStarts(v.starts, now), LiveSessions(v.sessions, now)[reference := session]), SessionMade(reference))
  }

  function GetSessionStep(v: Contents, reference: string, now: u64): Step {
    if reference !in v.sessions then Step(v, NoSession)
    else if v.sessions[reference].expiresAt <= now then Step(v.(sessions := v.sessions - {reference}), NoSession)
    else Step(v, SessionFound(v.sessions[reference]))
  }

  /** The locked part of the logout handler: find the session, check the token, remove the session. */
  function EndSessionStep(sha: Hash, v: Contents, reference: string, cookie: string, header: string, now: u64): Step {
    var found := GetSessionStep(v, reference, now);
    if found.outcome.NoSession? then found
    else if cookie != header || sha(cookie) != v.sessions[reference].csrfLookup then Step(v, NoSession)
    else Step(v.(sessions := v.sessions - {reference}), LoggedOut)
  }

  function Apply(sha: Hash, lim: Limits, v: Contents, op: Op): Step {
    match op
    case CreateStart(path, now, state, context, verifier) => CreateStartStep(sha, lim, v, path, now, state, context, verifier)
    case ClaimStart(state, context, now) => ClaimStartStep(v, state, context, now)
    case CreateSession(user, at, now, reference, csrf) => CreateSessionStep(sha, lim, v, user, at, now, reference, csrf)
    case GetSession(reference, now) => GetSessionStep(v, reference, now)
    case EndSession(reference, cookie, header, now) => EndSessionStep(sha, v, reference, cookie, header, now)
    case Cleanup(now) => Step(Live(v, now), Cleaned)
  }

  // ----- the retry loop -----

  /** The first drawn reference that is not in use. */
  ghost predicate FirstFree(draw: nat -> string, used: set<string>, k: nat) {
    draw(k) !in used && forall i: nat | i < k :: draw(i) in used
  }

  /** The first `n` draws are pairwise different. */
  ghost predicate Distinct(draw: nat -> string, n: nat) {
    forall i: nat, j: nat | i < j < n :: draw(i) != draw(j)
  }

  lemma {:induction false} DrawsFillUp(draw: nat -> string, used: set<string>, n: nat)
    requires Distinct(draw, n) && forall i: nat | i < n :: draw(i) in used
    ensures n <= |used|
    decreases n
  {
    if n > 0 {
      DrawsFillUp(draw, used - {draw(n - 1)}, n - 1);
    }
  }

  lemma {:induction false} FreeDrawWithin(draw: nat -> string, used: set<string>, n: nat)
    requires n <= |used| && Distinct(draw, |used| + 1) && forall i: nat | i < n :: draw(i) in used
    ensures exists k: nat | k <= |used| :: FirstFree(draw, used, k)
    decreases |used| + 1 - n
  {
    if draw(n) in used {
      DrawsFillUp(draw, used, n + 1);
      FreeDrawWithin(draw, used, n + 1);
    } else {
      assert FirstFree(draw, used, n);
    }
  }

  /**
    If as many draws as there are records, and one more, are pairwise distinct, the loop stops within
    these; and when the map is below its capacity, within as many draws as the capacity.
  */
  lemma RetryTerminates(draw: nat -> string, used: set<string>, capacity: nat)
    requires Distinct(draw, |used| + 1)
    ensures exists k: nat | k <= |used| :: FirstFree(draw, used, k)
    ensures |used| < capacity ==> exists k: nat | k < capacity :: FirstFree(draw, used, k)
  {
    FreeDrawWithin(draw, used, 0);
    var k: nat :| k <= |used| && FirstFree(draw, used, k);
    assert |used| < capacity ==> k < capacity && FirstFree(draw, used, k);
  }

  /** The retry loop of both creating operations. */
  method DrawUntilFree(draw: nat -> string, used: set<string>) returns (i: nat)
    requires exists n: nat :: draw(n) !in used
    ensures FirstFree(draw, used, i)
  {
    ghost var n: nat :| draw(n) !in used;
    i := 0;
    while draw(i) in used
      invariant i <= n
      invariant forall j: nat | j < i :: draw(j) in used
      decreases n - i
    {
      i := i + 1;
    }
  }

  // ----- the implementation -----

  class PortalLocalState {
    var loginStarts: map<string, LoginStart>
    var localSessions: map<string, LocalSession>
    const limits: Limits

    constructor (limits: Limits)
      ensures this.limits == limits && View() == Contents(map[], map[])
    {
      this.limits := limits;
      loginStarts := map[];
      localSessions := map[];
    }

    function View(): Contents
      reads this
    {
      Contents(loginStarts, localSessions)
    }

    /** Both `retain` loops: every record is visited once, and dropped if it has expired. */
    method CleanupExpired(now: u64)
      modifies this
      ensures View() == Live(old(View()), now)
      ensures forall k :: k in loginStarts <==> k in old(loginStarts) && now < old(loginStarts)[k].expiresAt
      ensures forall k :: k in localSessions <==> k in old(localSessions) && now < old(localSessions)[k].expiresAt
      ensures forall k | k in loginStarts :: loginStarts[k] == old(loginStarts)[k]
      ensures forall k | k in localSessions :: localSessions[k] == old(localSessions)[k]
    {
      RetainLoginStarts(now);
      RetainLocalSessions(now);
      assert loginStarts == LiveStarts(old(loginStarts), now);
      assert localSessions == LiveSessions(old(localSessions), now);
    }

    method RetainLoginStarts(now: u64)
      modifies this`loginStarts
      ensures forall k :: k in loginStarts <==> k in old(loginStarts) && now < old(loginStarts)[k].expiresAt
      ensures forall k | k in loginStarts :: loginStarts[k] == old(loginStarts)[k]
    {
      var rest := loginStarts.Keys;
      while rest != {}
        invariant rest <= loginStarts.Keys <= old(loginStarts.Keys)
        invariant forall k | k in loginStarts :: loginStarts[k] == old(loginStarts)[k]
        invariant forall k | k in old(loginStarts) && k !in rest :: k in loginStarts <==> now < old(loginStarts)[k].expiresAt
        decreases |rest|
      {
        var k :| k in rest;
        rest := rest - {k};
        if loginStarts[k].expiresAt <= now {
          loginStarts := loginStarts - {k};
        }
      }
    }

    method RetainLocalSessions(now: u64)
      modifies this`localSessions
      ensures forall k :: k in localSessions <==> k in old(localSessions) && now < old(localSessions)[k].expiresAt
      ensures forall k | k in localSessions :: localSessions[k] == old(localSessions)[k]
    {
      var rest := localSessions.Keys;
      while rest != {}
        invariant rest <= localSessions.Keys <= old(localSessions.Keys)
        invariant forall k | k in localSessions :: localSessions[k] == old(localSessions)[k]
        invariant forall k | k in old(localSessions) && k !in rest :: k in localSessions <==> now < old(localSessions)[k].expiresAt
        decreases |rest|
      {
        var k :| k in rest;
        rest := rest - {k};
        if localSessions[k].expiresAt <= now {
          localSessions := localSessions - {k};
        }
      }
    }

    method CreateLoginStart(sha: Hash, path: string, now: u64, draw: nat -> string) returns (outcome: Outcome, ghost k: nat)
      requires exists n: nat :: draw(n) !in LiveStarts(loginStarts, now)
      modifies this
      ensures Step(View(), outcome) == CreateStartStep(sha, limits, old(View()), path, now, draw(k), draw(k + 1), draw(k + 2))
      ensures outcome.Started? ==> FirstFree(draw, LiveStarts(old(loginStarts), now).Keys, k)
    {
      hide Challenge, ValidPostLoginPath;
      k := 0;
      if !ValidPostLoginPath(path) {
        return Refused(InvalidPostLoginPath), k;
      }
      CleanupExpired(now);
      if |loginStarts| >= limits.starts {
        return Refused(CapacityReached), k;
      }
      if now + LOGIN_START_TTL > U64_MAX {
        return Refused(ExpiryOverflow), k;
      }
      var i := DrawUntilFree(draw, loginStarts.Keys);
      var state, context, verifier := draw(i), draw(i + 1), draw(i + 2);
      loginStarts := loginStarts[state := LoginStart(context, verifier, path, now, now + LOGIN_START_TTL)];
      return Started(state, context, Challenge(sha, verifier)), i;
    }

    method ClaimLoginStart(state: string, context: string, now: u64) returns (outcome: Outcome)
      modifies this
      ensures Step(View(), outcome) == ClaimStartStep(old(View()), state, context, now)
    {
      if state !in loginStarts {
        return Refused(NotFound);
      }
      var record := loginStarts[state];
      if record.expiresAt <= now {
        loginStarts := loginStarts - {state};
        return Refused(Expired);
      }
      if record.browserContext != context {
        return Refused(BrowserContextMismatch);
      }
      loginStarts := loginStarts - {state};
      return StartClaimed(record);
    }

    method CreateLocalSession(sha: Hash, user: i32, authenticatedAt: u64, now: u64, draw: nat -> string) returns (outcome: Outcome, ghost k: nat)
      requires exists n: nat :: draw(n) !in LiveSessions(localSessions, now)
      modifies this
      ensures Step(View(), outcome) == CreateSessionStep(sha, limits, old(View()), user, authenticatedAt, now, draw(k), draw(k + 1))
      ensures outcome.SessionMade? ==> FirstFree(draw, LiveSessions(old(localSessions), now).Keys, k)
    {
      k := 0;
      CleanupExpired(now);
      if |localSessions| >= limits.sessions {
        return Refused(CapacityReached), k;
      }
      if now + LOCAL_SESSION_TTL > U64_MAX {
        return Refused(ExpiryOverflow), k;
      }
      var i := DrawUntilFree(draw, localSessions.Keys);
      var reference, csrf := draw(i), draw(i + 1);
      localSessions := localSessions[reference :=
        LocalSession(user, authenticatedAt, now, now + LOCAL_SESSION_TTL, sha(csrf))];
      return SessionMade(reference), i;
    }

    method GetLocalSession(reference: string, now: u64) returns (outcome: Outcome)
      modifies this
      ensures Step(View(), outcome) == GetSessionStep(old(View()), reference, now)
    {
      if reference in localSessions && localSessions[reference].expiresAt <= now {
        localSessions := localSessions - {reference};
        return NoSession;
      }
      if reference !in localSessions {
        return NoSession;
      }
      return SessionFound(localSessions[reference]);
    }

    method RemoveLocalSession(reference: string) returns (removed: bool)
      modifies this
      ensures removed == (reference in old(localSessions))
      ensures localSessions == old(localSessions) - {reference} && loginStarts == old(loginStarts)
    {
      removed := reference in localSessions;
      localSessions := localSessions - {reference};
    }

    /** The locked part of the logout handler. */
    method LogoutUnderLock(sha: Hash, reference: string, csrfCookie: string, csrfHeader: string, now: u64) returns (outcome: Outcome)
      modifies this
      ensures Step(View(), outcome) == EndSessionStep(sha, old(View()), reference, csrfCookie, csrfHeader, now)
    {
      var found := GetLocalSession(reference, now);
      if found.NoSession? {
        return NoSession;
      }
      if csrfCookie != csrfHeader {
        return NoSession;
      }
      if sha(csrfCookie) != found.session.csrfLookup {
        return NoSession;
      }
      var removed := RemoveLocalSession(reference);
      return if removed then LoggedOut else NoSession;
    }
  }
}
