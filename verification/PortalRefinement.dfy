/** Lazy cleanup cannot be told from maps that are never cleaned but filtered by expiry. */
module PortalRefinement {
  import opened Common
  import opened Decimal
  import opened References
  import opened Portal

  /** The simple model: nothing is ever cleaned; a record counts while it is live. */
  function Ideal(sha: Hash, lim: Limits, m: Contents, op: Op): Step {
    match op
    case CreateStart(path, now, state, context, verifier) =>
      if !ValidPostLoginPath(path) then Step(m, Refused(InvalidPostLoginPath))
      else if |LiveStarts(m.starts, now)| >= lim.starts then Step(m, Refused(CapacityReached))
      else if now + LOGIN_START_TTL > U64_MAX then Step(m, Refused(ExpiryOverflow))
      else
        var start := LoginStart(context, verifier, path, now, now + LOGIN_START_TTL);
        Step(m.(starts := m.starts[state := start]), Started(state, context, Challenge(sha, verifier)))
    case ClaimStart(state, context, now) =>
      if state !in LiveStarts(m.starts, now) then Step(m, Refused(NotFound))
      else if m.starts[state].browserContext != context then Step(m, Refused(BrowserContextMismatch))
      else Step(m.(starts := m.starts - {state}), StartClaimed(m.starts[state]))
    case CreateSession(user, authenticatedAt, now, reference, csrf) =>
      if |LiveSessions(m.sessions, now)| >= lim.sessions then Step(m, Refused(CapacityReached))
      else if now + LOCAL_SESSION_TTL > U64_MAX then Step(m, Refused(ExpiryOverflow))
      else
        var session := LocalSession(user, authenticatedAt, now, now + LOCAL_SESSION_TTL, sha(csrf));
        Step(m.(sessions := m.sessions[reference := session]), SessionMade(reference))
    case GetSession(reference, now) =>
      if reference !in LiveSessions(m.sessions, now) then Step(m, NoSession)
      else Step(m, SessionFound(m.sessions[reference]))
    case EndSession(reference, cookie, header, now) =>
      if reference !in LiveSessions(m.sessions, now) || cookie != header || sha(cookie) != m.sessions[reference].csrfLookup
      then Step(m, NoSession)
      else Step(m.(sessions := m.sessions - {reference}), LoggedOut)
    case Cleanup(_) => Step(m, Cleaned)
  }

  /** The callback handler answers 400 to both. */
  function Blurred(o: Outcome): Outcome {
    if o == Refused(Expired) then Refused(NotFound) else o
  }

  /** At time `t` the two hold the same live records. */
  ghost predicate Tracks(v: Contents, m: Contents, t: u64) {
    LiveStarts(v.starts, t) == LiveStarts(m.starts, t) && LiveSessions(v.sessions, t) == LiveSessions(m.sessions, t)
  }

  ghost predicate Bounded(lim: Limits, v: Contents) {
    |v.starts| <= lim.starts && |v.sessions| <= lim.sessions
  }

  lemma StillTracks(v: Contents, m: Contents, t: u64, now: u64)
    requires Tracks(v, m, t) && t <= now
    ensures Tracks(v, m, now)
  {
    forall k
      ensures k in LiveStarts(v.starts, now) <==> k in LiveStarts(m.starts, now)
      ensures k in LiveStarts(v.starts, now) ==> v.starts[k] == m.starts[k]
    {
      assert k in LiveStarts(v.starts, t) <==> k in LiveStarts(m.starts, t);
      assert k in LiveStarts(v.starts, t) ==> LiveStarts(v.starts, t)[k] == LiveStarts(m.starts, t)[k];
    }
    forall k
      ensures k in LiveSessions(v.sessions, now) <==> k in LiveSessions(m.sessions, now)
      ensures k in LiveSessions(v.sessions, now) ==> v.sessions[k] == m.sessions[k]
    {
      assert k in LiveSessions(v.sessions, t) <==> k in LiveSessions(m.sessions, t);
      assert k in LiveSessions(v.sessions, t) ==> LiveSessions(v.sessions, t)[k] == LiveSessions(m.sessions, t)[k];
    }
  }

  lemma {:induction false} SubmapSize<K, V>(a: map<K, V>, b: map<K, V>)
    requires a.Keys <= b.Keys
    ensures |a| <= |b|
    decreases a.Keys
  {
    if a.Keys != {} {
      var k :| k in a.Keys;
      SubmapSize(a - {k}, b - {k});
      assert |a - {k}| == |a| - 1 && |b - {k}| == |b| - 1 by {
        assert (a - {k}).Keys == a.Keys - {k} && (b - {k}).Keys == b.Keys - {k};
      }
    }
  }

  // ----- one operation at a time, seen at the operation's own time -----

  ghost predicate Agree(sha: Hash, lim: Limits, v: Contents, m: Contents, op: Op) {
    && Blurred(Apply(sha, lim, v, op).outcome) == Blurred(Ideal(sha, lim, m, op).outcome)
    && Tracks(Apply(sha, lim, v, op).contents, Ideal(sha, lim, m, op).contents, op.now)
  }

  lemma CleaningTracks(v: Contents, now: u64)
    ensures LiveStarts(LiveStarts(v.starts, now), now) == LiveStarts(v.starts, now)
    ensures LiveSessions(LiveSessions(v.sessions, now), now) == LiveSessions(v.sessions, now)
  {
  }

  lemma LiveStartAt(m: map<string, LoginStart>, k: string, now: u64)
    ensures k in LiveStarts(m, now) <==> k in m && m[k].expiresAt > now
    ensures k in LiveStarts(m, now) ==> LiveStarts(m, now)[k] == m[k]
    ensures LiveStarts(m - {k}, now) == LiveStarts(m, now) - {k}
    ensures k !in LiveStarts(m, now) ==> LiveStarts(m, now) - {k} == LiveStarts(m, now)
  {
  }

  lemma LiveSessionAt(m: map<string, LocalSession>, k: string, now: u64)
    ensures k in LiveSessions(m, now) <==> k in m && m[k].expiresAt > now
    ensures k in LiveSessions(m, now) ==> LiveSessions(m, now)[k] == m[k]
    ensures LiveSessions(m - {k}, now) == LiveSessions(m, now) - {k}
    ensures k !in LiveSessions(m, now) ==> LiveSessions(m, now) - {k} == LiveSessions(m, now)
  {
  }

  lemma PutStart(m: map<string, LoginStart>, k: string, r: LoginStart, now: u64)
    requires r.expiresAt > now
    ensures LiveStarts(m[k := r], now) == LiveStarts(m, now)[k := r]
  {
  }

  lemma PutSession(m: map<string, LocalSession>, k: string, r: LocalSession, now: u64)
    requires r.expiresAt > now
    ensures LiveSessions(m[k := r], now) == LiveSessions(m, now)[k := r]
  {
  }

  lemma CreateStartAgrees(sha: Hash, lim: Limits, v: Contents, m: Contents, op: Op)
    requires Tracks(v, m, op.now) && op.CreateStart?
    ensures Agree(sha, lim, v, m, op)
  {
    hide Challenge, ValidPostLoginPath, LiveStarts, LiveSessions;
    CleaningTracks(v, op.now);
    if op.now + LOGIN_START_TTL <= U64_MAX {
      var start := LoginStart(op.browserContext, op.verifier, op.path, op.now, op.now + LOGIN_START_TTL);
      PutStart(m.starts, op.state, start, op.now);
      PutStart(LiveStarts(v.starts, op.now), op.state, start, op.now);
    }
  }

  lemma CreateSessionAgrees(sha: Hash, lim: Limits, v: Contents, m: Contents, op: Op)
    requires Tracks(v, m, op.now) && op.CreateSession?
    ensures Agree(sha, lim, v, m, op)
  {
    hide LiveStarts, LiveSessions;
    CleaningTracks(v, op.now);
    if op.now + LOCAL_SESSION_TTL <= U64_MAX {
      var session := LocalSession(op.internalUserId, op.authenticatedAt, op.now, op.now + LOCAL_SESSION_TTL, sha(op.csrf));
      PutSession(m.sessions, op.reference, session, op.now);
      PutSession(LiveSessions(v.sessions, op.now), op.reference, session, op.now);
    }
  }

  lemma ClaimStartAgrees(sha: Hash, lim: Limits, v: Contents, m: Contents, op: Op)
    requires Tracks(v, m, op.now) && op.ClaimStart?
    ensures Agree(sha, lim, v, m, op)
  {
    hide LiveStarts, LiveSessions;
    LiveStartAt(v.starts, op.state, op.now);
    LiveStartAt(m.starts, op.state, op.now);
  }

  lemma UseSessionAgrees(sha: Hash, lim: Limits, v: Contents, m: Contents, op: Op)
    requires Tracks(v, m, op.now) && (op.GetSession? || op.EndSession?)
    ensures Agree(sha, lim, v, m, op)
  {
    hide LiveStarts, LiveSessions;
    LiveSessionAt(v.sessions, op.reference, op.now);
    LiveSessionAt(m.sessions, op.reference, op.now);
  }

  lemma OperationAgrees(sha: Hash, lim: Limits, v: Contents, m: Contents, op: Op)
    requires Tracks(v, m, op.now)
    ensures Agree(sha, lim, v, m, op)
  {
    match op
    case CreateStart(_, _, _, _, _) => CreateStartAgrees(sha, lim, v, m, op);
    case ClaimStart(_, _, _) => ClaimStartAgrees(sha, lim, v, m, op);
    case CreateSession(_, _, _, _, _) => CreateSessionAgrees(sha, lim, v, m, op);
    case GetSession(_, _) => UseSessionAgrees(sha, lim, v, m, op);
    case EndSession(_, _, _, _) => UseSessionAgrees(sha, lim, v, m, op);
    case Cleanup(now) => CleaningTracks(v, now);
  }

  lemma CleaningBounds(lim: Limits, v: Contents, now: u64)
    requires Bounded(lim, v)
    ensures |LiveStarts(v.starts, now)| <= lim.starts && |LiveSessions(v.sessions, now)| <= lim.sessions
  {
    SubmapSize(LiveStarts(v.starts, now), v.starts);
    SubmapSize(LiveSessions(v.sessions, now), v.sessions);
  }

  lemma UpdateSize<V>(m: map<string, V>, k: string, v: V)
    ensures |m[k := v]| <= |m| + 1 && |m - {k}| <= |m|
  {
    assert m[k := v].Keys == m.Keys + {k};
    SubmapSize(m - {k}, m);
  }

  lemma CreatingBounds(sha: Hash, lim: Limits, v: Contents, op: Op)
    requires Bounded(lim, v) && (op.CreateStart? || op.CreateSession?)
    ensures Bounded(lim, Apply(sha, lim, v, op).contents)
  {
    hide Challenge, ValidPostLoginPath, LiveStarts, LiveSessions;
    var now := op.now;
    CleaningBounds(lim, v, now);
    if op.CreateStart? && now + LOGIN_START_TTL <= U64_MAX {
      var start := LoginStart(op.browserContext, op.verifier, op.path, now, now + LOGIN_START_TTL);
      UpdateSize(LiveStarts(v.starts, now), op.state, start);
    } else if op.CreateSession? && now + LOCAL_SESSION_TTL <= U64_MAX {
      var session := LocalSession(op.internalUserId, op.authenticatedAt, now, now + LOCAL_SESSION_TTL, sha(op.csrf));
      UpdateSize(LiveSessions(v.sessions, now), op.reference, session);
    }
  }

  lemma RemovingBounds(sha: Hash, lim: Limits, v: Contents, op: Op)
    requires Bounded(lim, v) && (op.ClaimStart? || op.GetSession? || op.EndSession?)
    ensures Bounded(lim, Apply(sha, lim, v, op).contents)
  {
    assert Bounded(lim, v) && (op.ClaimStart? ==> Bounded(lim, v.(starts := v.starts - {op.state}))) by {
      if op.ClaimStart? {
        SubmapSize(v.starts - {op.state}, v.starts);
      }
    }
    assert !op.ClaimStart? ==> Bounded(lim, v.(sessions := v.sessions - {op.reference})) by {
      if !op.ClaimStart? {
        SubmapSize(v.sessions - {op.reference}, v.sessions);
      }
    }
    hide Bounded;
  }

  lemma OperationBounds(sha: Hash, lim: Limits, v: Contents, op: Op)
    requires Bounded(lim, v)
    ensures Bounded(lim, Apply(sha, lim, v, op).contents)
  {
    if op.CreateStart? || op.CreateSession? {
      CreatingBounds(sha, lim, v, op);
    } else if op.Cleanup? {
      CleaningBounds(lim, v, op.now);
    } else {
      RemovingBounds(sha, lim, v, op);
    }
  }

  // ----- whole sequences -----

  const NOTHING: Contents := Contents(map[], map[])

  function RealAfter(sha: Hash, lim: Limits, ops: seq<Op>): Contents {
    if ops == [] then NOTHING else Apply(sha, lim, RealAfter(sha, lim, ops[..|ops| - 1]), ops[|ops| - 1]).contents
  }

  function IdealAfter(sha: Hash, lim: Limits, ops: seq<Op>): Contents {
    if ops == [] then NOTHING else Ideal(sha, lim, IdealAfter(sha, lim, ops[..|ops| - 1]), ops[|ops| - 1]).contents
  }

  function LastTime(ops: seq<Op>): u64 {
    if ops == [] then 0 else ops[|ops| - 1].now
  }

  /** In lock order, time does not go back. */
  predicate InOrder(ops: seq<Op>) {
    forall i, j | 0 <= i < j < |ops| :: ops[i].now <= ops[j].now
  }

  /**
    For every sequence of operations in order of time, with cleanups anywhere, the live records are
    those of the simple model and both maps stay within their capacity.
  */
  lemma {:induction false} LazyCleanupTracks(sha: Hash, lim: Limits, ops: seq<Op>)
    requires InOrder(ops)
    ensures Tracks(RealAfter(sha, lim, ops), IdealAfter(sha, lim, ops), LastTime(ops))
    ensures Bounded(lim, RealAfter(sha, lim, ops))
    decreases |ops|
  {
    if ops != [] {
      var before, op := ops[..|ops| - 1], ops[|ops| - 1];
      LazyCleanupTracks(sha, lim, before);
      StillTracks(RealAfter(sha, lim, before), IdealAfter(sha, lim, before), LastTime(before), op.now);
      OperationAgrees(sha, lim, RealAfter(sha, lim, before), IdealAfter(sha, lim, before), op);
      OperationBounds(sha, lim, RealAfter(sha, lim, before), op);
    }
  }

  /**
    The next operation answers as in the simple model, Expired and NotFound aside; in particular
    capacity is reached exactly when that many records are live.
  */
  lemma LazyCleanupIsInvisible(sha: Hash, lim: Limits, ops: seq<Op>, op: Op)
    requires InOrder(ops + [op])
    ensures Blurred(Apply(sha, lim, RealAfter(sha, lim, ops), op).outcome)
         == Blurred(Ideal(sha, lim, IdealAfter(sha, lim, ops), op).outcome)
  {
    var all := ops + [op];
    assert forall i | 0 <= i < |ops| :: ops[i] == all[i];
    assert all[|ops|] == op;
    LazyCleanupTracks(sha, lim, ops);
    StillTracks(RealAfter(sha, lim, ops), IdealAfter(sha, lim, ops), LastTime(ops), op.now);
    OperationAgrees(sha, lim, RealAfter(sha, lim, ops), IdealAfter(sha, lim, ops), op);
  }

  /** A login start made at time 0 in an empty portal. */
  lemma FirstStart(sha: Hash, lim: Limits, create: Op, start: LoginStart)
    requires lim.starts > 0 && create == CreateStart("/", 0, "s", "c", "v") && start == LoginStart("c", "v", "/", 0, 600)
    ensures RealAfter(sha, lim, [create]).starts == map["s" := start]
    ensures IdealAfter(sha, lim, [create]).starts == map["s" := start]
  {
    hide Challenge;
    assert [create][..0] == [];
    assert ValidPostLoginPath("/");
    assert LiveStarts(map[], 0) == map[];
    assert Apply(sha, lim, NOTHING, create).contents.starts == map["s" := start];
    assert Ideal(sha, lim, NOTHING, create).contents.starts == map["s" := start];
  }

  /** The order is needed: a claim whose time was read before a later cleanup finds nothing. */
  lemma TimeMustNotGoBack(sha: Hash, lim: Limits)
    requires lim.starts > 0
    ensures exists ops: seq<Op>, op: Op ::
              Apply(sha, lim, RealAfter(sha, lim, ops), op).outcome == Refused(NotFound)
              && Ideal(sha, lim, IdealAfter(sha, lim, ops), op).outcome.StartClaimed?
  {
    hide Challenge, CreateStartStep, CreateSessionStep;
    var create, start := CreateStart("/", 0, "s", "c", "v"), LoginStart("c", "v", "/", 0, 600);
    var ops, op := [create, Cleanup(700)], ClaimStart("s", "c", 599);
    FirstStart(sha, lim, create, start);
    assert ops[..1] == [create];
    var v, m := RealAfter(sha, lim, ops), IdealAfter(sha, lim, ops);
    assert v.starts == LiveStarts(map["s" := start], 700) == map[];
    assert m.starts == map["s" := start];
    LiveStartAt(m.starts, "s", 599);
    assert Apply(sha, lim, v, op).outcome == Refused(NotFound);
  }
}
