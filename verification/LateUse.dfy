/**
  Operations whose times are not in order.  The portal's handlers read the time before they take the
  lock, so an operation may come with a time older than a cleanup.  Which operations this changes is
  said exactly, for every sequence of operations with any times whatever.
*/
module LateUse {
  import opened Common
  import opened Decimal
  import opened References
  import opened Portal
  import opened PortalRefinement

  function Max(a: int, b: int): int {
    if a < b then b else a
  }

  // ----- when a record of the past was last looked at -----

  /**
    The latest time at which a login start kept under `k` would have been dropped if expired: that of
    a cleanup, alone or within a creation, or of a claim of it.  A new login start begins afresh.
  */
  function StartPurgeAfter(p: int, k: string, op: Op, started: bool): int {
    match op
    case CreateStart(path, now, state, _, _) =>
      if !ValidPostLoginPath(path) then p else if started && k == state then -1 else Max(p, now)
    case ClaimStart(state, _, now) => if k == state then Max(p, now) else p
    case CreateSession(_, _, now, _, _) => Max(p, now)
    case Cleanup(now) => Max(p, now)
    case _ => p
  }

  function SessionPurgeAfter(p: int, k: string, op: Op, made: bool): int {
    match op
    case CreateStart(path, now, _, _, _) => if !ValidPostLoginPath(path) then p else Max(p, now)
    case CreateSession(_, _, now, reference, _) => if made && k == reference then -1 else Max(p, now)
    case GetSession(reference, now) => if k == reference then Max(p, now) else p
    case EndSession(reference, _, _, now) => if k == reference then Max(p, now) else p
    case Cleanup(now) => Max(p, now)
    case _ => p
  }

  function StartPurge(sha: Hash, lim: Limits, ops: seq<Op>, k: string): int {
    if ops == [] then -1 else
    var before, op := ops[..|ops| - 1], ops[|ops| - 1];
    StartPurgeAfter(StartPurge(sha, lim, before, k), k, op, Ideal(sha, lim, IdealAfter(sha, lim, before), op).outcome.Started?)
  }

  function SessionPurge(sha: Hash, lim: Limits, ops: seq<Op>, k: string): int {
    if ops == [] then -1 else
    var before, op := ops[..|ops| - 1], ops[|ops| - 1];
    SessionPurgeAfter(SessionPurge(sha, lim, before, k), k, op, Ideal(sha, lim, IdealAfter(sha, lim, before), op).outcome.SessionMade?)
  }

  function KeptStarts(sha: Hash, lim: Limits, ops: seq<Op>): map<string, LoginStart> {
    var m := IdealAfter(sha, lim, ops).starts;
    map k | k in m && m[k].expiresAt > StartPurge(sha, lim, ops, k) :: m[k]
  }

  function KeptSessions(sha: Hash, lim: Limits, ops: seq<Op>): map<string, LocalSession> {
    var m := IdealAfter(sha, lim, ops).sessions;
    map k | k in m && m[k].expiresAt > SessionPurge(sha, lim, ops, k) :: m[k]
  }

  // ----- one operation -----

  /**
    An operation comes late if its own time is before the expiry of a record that has been dropped at
    a later time: the record it is about, or one that would have taken up the room it is given.
  */
  predicate Late(sha: Hash, lim: Limits, ops: seq<Op>, op: Op) {
    var m := IdealAfter(sha, lim, ops);
    match op
    case CreateStart(path, now, _, _, _) =>
      ValidPostLoginPath(path) && |LiveStarts(KeptStarts(sha, lim, ops), now)| < lim.starts <= |LiveStarts(m.starts, now)|
    case ClaimStart(state, _, now) =>
      state in m.starts && now < m.starts[state].expiresAt <= StartPurge(sha, lim, ops, state)
    case CreateSession(_, _, now, _, _) =>
      |LiveSessions(KeptSessions(sha, lim, ops), now)| < lim.sessions <= |LiveSessions(m.sessions, now)|
    case GetSession(r, now) =>
      r in m.sessions && now < m.sessions[r].expiresAt <= SessionPurge(sha, lim, ops, r)
    case EndSession(r, cookie, header, now) =>
      && r in m.sessions && now < m.sessions[r].expiresAt <= SessionPurge(sha, lim, ops, r)
      && cookie == header && sha(cookie) == m.sessions[r].csrfLookup
    case Cleanup(_) => false
  }

  predicate Alike(sha: Hash, lim: Limits, v: Contents, m: Contents, op: Op) {
    Blurred(Apply(sha, lim, v, op).outcome) == Blurred(Ideal(sha, lim, m, op).outcome)
  }

  function StartExpiry(): LoginStart -> int { (r: LoginStart) => r.expiresAt }
  function SessionExpiry(): LocalSession -> int { (r: LocalSession) => r.expiresAt }

  /** `kept` is what `m` keeps after the given purges. */
  ghost predicate Keeps<V(!new)>(kept: map<string, V>, m: map<string, V>, expires: V -> int, p: string -> int) {
    forall k :: (k in kept <==> k in m && expires(m[k]) > p(k)) && (k in kept ==> kept[k] == m[k])
  }

  ghost predicate KeepsStarts(kept: map<string, LoginStart>, m: map<string, LoginStart>, p: string -> int) {
    Keeps(kept, m, StartExpiry(), p)
  }

  ghost predicate KeepsSessions(kept: map<string, LocalSession>, m: map<string, LocalSession>, p: string -> int) {
    Keeps(kept, m, SessionExpiry(), p)
  }

  /** `live` is what is unexpired of `v`. */
  ghost predicate IsLive<V(!new)>(live: map<string, V>, v: map<string, V>, expires: V -> int, now: int) {
    forall k :: (k in live <==> k in v && expires(v[k]) > now) && (k in live ==> live[k] == v[k])
  }

  lemma LiveIsLive(starts: map<string, LoginStart>, sessions: map<string, LocalSession>, now: u64)
    ensures IsLive(LiveStarts(starts, now), starts, StartExpiry(), now)
    ensures IsLive(LiveSessions(sessions, now), sessions, SessionExpiry(), now)
  {
  }

  lemma Purged<V(!new)>(v: map<string, V>, live: map<string, V>, m: map<string, V>, expires: V -> int, p: string -> int, now: int)
    requires Keeps(v, m, expires, p) && IsLive(live, v, expires, now)
    ensures Keeps(live, m, expires, k => Max(p(k), now))
  {
  }

  lemma Fresher<V(!new)>(v: map<string, V>, m: map<string, V>, expires: V -> int, p: string -> int, p': string -> int, k0: string, r: V)
    requires Keeps(v, m, expires, p) && p'(k0) == -1 && expires(r) >= 0 && forall k | k != k0 :: p'(k) == p(k)
    ensures Keeps(v[k0 := r], m[k0 := r], expires, p')
  {
  }

  lemma SamePurge<V(!new)>(v: map<string, V>, m: map<string, V>, expires: V -> int, p: string -> int, p': string -> int)
    requires Keeps(v, m, expires, p) && forall k :: p'(k) == p(k)
    ensures Keeps(v, m, expires, p')
  {
  }

  lemma FewerLive<V(!new)>(v: map<string, V>, m: map<string, V>, vLive: map<string, V>, mLive: map<string, V>, expires: V -> int, p: string -> int, now: int)
    requires Keeps(v, m, expires, p) && IsLive(vLive, v, expires, now) && IsLive(mLive, m, expires, now)
    ensures |vLive| <= |mLive|
  {
    SubmapSize(vLive, mLive);
  }

  lemma CreateStartAlike(sha: Hash, lim: Limits, v: Contents, m: Contents, op: Op, p: string -> int)
    requires op.CreateStart? && KeepsStarts(v.starts, m.starts, p)
    ensures Alike(sha, lim, v, m, op) <==>
            !(ValidPostLoginPath(op.path) && |LiveStarts(v.starts, op.now)| < lim.starts <= |LiveStarts(m.starts, op.now)|)
  {
    hide LiveStarts, LiveSessions, Keeps, IsLive, ValidPostLoginPath, Challenge;
    LiveIsLive(v.starts, v.sessions, op.now);
    LiveIsLive(m.starts, m.sessions, op.now);
    FewerLive(v.starts, m.starts, LiveStarts(v.starts, op.now), LiveStarts(m.starts, op.now), StartExpiry(), p, op.now);
  }

  lemma CreateSessionAlike(sha: Hash, lim: Limits, v: Contents, m: Contents, op: Op, p: string -> int)
    requires op.CreateSession? && KeepsSessions(v.sessions, m.sessions, p)
    ensures Alike(sha, lim, v, m, op) <==> !(|LiveSessions(v.sessions, op.now)| < lim.sessions <= |LiveSessions(m.sessions, op.now)|)
  {
    hide LiveStarts, LiveSessions, Keeps, IsLive;
    LiveIsLive(v.starts, v.sessions, op.now);
    LiveIsLive(m.starts, m.sessions, op.now);
    FewerLive(v.sessions, m.sessions, LiveSessions(v.sessions, op.now), LiveSessions(m.sessions, op.now), SessionExpiry(), p, op.now);
  }

  lemma ClaimStartAlike(sha: Hash, lim: Limits, v: Contents, m: Contents, op: Op, p: string -> int)
    requires op.ClaimStart? && KeepsStarts(v.starts, m.starts, p)
    ensures Alike(sha, lim, v, m, op) <==>
            !(op.state in m.starts && op.now < m.starts[op.state].expiresAt <= p(op.state))
  {
    LiveStartAt(m.starts, op.state, op.now);
    assert op.state in v.starts <==> op.state in m.starts && m.starts[op.state].expiresAt > p(op.state);
    hide LiveStarts, LiveSessions;
  }

  lemma UseSessionAlike(sha: Hash, lim: Limits, v: Contents, m: Contents, op: Op, p: string -> int)
    requires (op.GetSession? || op.EndSession?) && KeepsSessions(v.sessions, m.sessions, p)
    ensures Alike(sha, lim, v, m, op) <==>
            !(&& op.reference in m.sessions && op.now < m.sessions[op.reference].expiresAt <= p(op.reference)
              && (op.EndSession? ==> op.csrfCookie == op.csrfHeader && sha(op.csrfCookie) == m.sessions[op.reference].csrfLookup))
  {
    LiveSessionAt(m.sessions, op.reference, op.now);
    assert op.reference in v.sessions <==> op.reference in m.sessions && m.sessions[op.reference].expiresAt > p(op.reference);
    hide LiveStarts, LiveSessions;
  }

  // ----- what is kept after it -----

  lemma StartsAfter(sha: Hash, lim: Limits, v: Contents, m: Contents, op: Op, p: string -> int, p': string -> int)
    requires KeepsStarts(v.starts, m.starts, p) && Alike(sha, lim, v, m, op)
    requires forall k :: p'(k) == StartPurgeAfter(p(k), k, op, Ideal(sha, lim, m, op).outcome.Started?)
    ensures KeepsStarts(Apply(sha, lim, v, op).contents.starts, Ideal(sha, lim, m, op).contents.starts, p')
  {
    if op.CreateStart? {
      StartsAfterCreate(sha, lim, v, m, op, p, p');
    } else if op.ClaimStart? {
      StartsAfterClaim(sha, lim, v, m, op, p, p');
    } else if op.CreateSession? {
      StartsAfterSession(sha, lim, v, m, op, p, p');
    }
  }

  lemma StartsAfterCreate(sha: Hash, lim: Limits, v: Contents, m: Contents, op: Op, p: string -> int, p': string -> int)
    requires op.CreateStart? && KeepsStarts(v.starts, m.starts, p) && Alike(sha, lim, v, m, op)
    requires forall k :: p'(k) == StartPurgeAfter(p(k), k, op, Ideal(sha, lim, m, op).outcome.Started?)
    ensures KeepsStarts(Apply(sha, lim, v, op).contents.starts, Ideal(sha, lim, m, op).contents.starts, p')
  {
    hide LiveSessions, LiveStarts, ValidPostLoginPath, Challenge, Keeps, IsLive;
    var started := Ideal(sha, lim, m, op).outcome.Started?;
    if ValidPostLoginPath(op.path) {
      var live := LiveStarts(v.starts, op.now);
      LiveIsLive(v.starts, v.sessions, op.now);
      Purged(v.starts, live, m.starts, StartExpiry(), p, op.now);
      if started {
        Fresher(live, m.starts, StartExpiry(), k => Max(p(k), op.now), p', op.state, Ideal(sha, lim, m, op).contents.starts[op.state]);
      } else {
        SamePurge(live, m.starts, StartExpiry(), k => Max(p(k), op.now), p');
      }
    } else {
      SamePurge(v.starts, m.starts, StartExpiry(), p, p');
    }
  }

  lemma StartsAfterClaim(sha: Hash, lim: Limits, v: Contents, m: Contents, op: Op, p: string -> int, p': string -> int)
    requires op.ClaimStart? && KeepsStarts(v.starts, m.starts, p) && Alike(sha, lim, v, m, op)
    requires forall k :: p'(k) == StartPurgeAfter(p(k), k, op, false)
    ensures KeepsStarts(Apply(sha, lim, v, op).contents.starts, Ideal(sha, lim, m, op).contents.starts, p')
  {
    hide LiveSessions;
  }

  lemma StartsAfterSession(sha: Hash, lim: Limits, v: Contents, m: Contents, op: Op, p: string -> int, p': string -> int)
    requires op.CreateSession? && KeepsStarts(v.starts, m.starts, p)
    requires forall k :: p'(k) == StartPurgeAfter(p(k), k, op, false)
    ensures KeepsStarts(Apply(sha, lim, v, op).contents.starts, Ideal(sha, lim, m, op).contents.starts, p')
  {
    hide LiveSessions;
  }

  lemma SessionsAfter(sha: Hash, lim: Limits, v: Contents, m: Contents, op: Op, p: string -> int, p': string -> int)
    requires KeepsSessions(v.sessions, m.sessions, p) && Alike(sha, lim, v, m, op)
    requires forall k :: p'(k) == SessionPurgeAfter(p(k), k, op, Ideal(sha, lim, m, op).outcome.SessionMade?)
    ensures KeepsSessions(Apply(sha, lim, v, op).contents.sessions, Ideal(sha, lim, m, op).contents.sessions, p')
  {
    if op.CreateSession? {
      SessionsAfterCreate(sha, lim, v, m, op, p, p');
    } else if op.GetSession? || op.EndSession? {
      SessionsAfterUse(sha, lim, v, m, op, p, p');
    } else if op.CreateStart? {
      SessionsAfterStart(sha, lim, v, m, op, p, p');
    }
  }

  lemma SessionsAfterCreate(sha: Hash, lim: Limits, v: Contents, m: Contents, op: Op, p: string -> int, p': string -> int)
    requires op.CreateSession? && KeepsSessions(v.sessions, m.sessions, p) && Alike(sha, lim, v, m, op)
    requires forall k :: p'(k) == SessionPurgeAfter(p(k), k, op, Ideal(sha, lim, m, op).outcome.SessionMade?)
    ensures KeepsSessions(Apply(sha, lim, v, op).contents.sessions, Ideal(sha, lim, m, op).contents.sessions, p')
  {
    hide LiveStarts, LiveSessions, Keeps, IsLive;
    var live := LiveSessions(v.sessions, op.now);
    LiveIsLive(v.starts, v.sessions, op.now);
    Purged(v.sessions, live, m.sessions, SessionExpiry(), p, op.now);
    if Ideal(sha, lim, m, op).outcome.SessionMade? {
      Fresher(live, m.sessions, SessionExpiry(), k => Max(p(k), op.now), p', op.reference,
              Ideal(sha, lim, m, op).contents.sessions[op.reference]);
    } else {
      SamePurge(live, m.sessions, SessionExpiry(), k => Max(p(k), op.now), p');
    }
  }

  lemma SessionsAfterUse(sha: Hash, lim: Limits, v: Contents, m: Contents, op: Op, p: string -> int, p': string -> int)
    requires (op.GetSession? || op.EndSession?) && KeepsSessions(v.sessions, m.sessions, p) && Alike(sha, lim, v, m, op)
    requires forall k :: p'(k) == SessionPurgeAfter(p(k), k, op, false)
    ensures KeepsSessions(Apply(sha, lim, v, op).contents.sessions, Ideal(sha, lim, m, op).contents.sessions, p')
  {
    hide LiveStarts;
  }

  lemma SessionsAfterStart(sha: Hash, lim: Limits, v: Contents, m: Contents, op: Op, p: string -> int, p': string -> int)
    requires op.CreateStart? && KeepsSessions(v.sessions, m.sessions, p)
    requires forall k :: p'(k) == SessionPurgeAfter(p(k), k, op, false)
    ensures KeepsSessions(Apply(sha, lim, v, op).contents.sessions, Ideal(sha, lim, m, op).contents.sessions, p')
  {
    hide LiveStarts, ValidPostLoginPath, Challenge;
  }

  // ----- whole sequences -----

  /** Every operation of the sequence was answered as in the simple model, Expired and NotFound aside. */
  predicate AllAlike(sha: Hash, lim: Limits, ops: seq<Op>) {
    ops == [] ||
    var before, op := ops[..|ops| - 1], ops[|ops| - 1];
    AllAlike(sha, lim, before) && Alike(sha, lim, RealAfter(sha, lim, before), IdealAfter(sha, lim, before), op)
  }

  predicate NoneLate(sha: Hash, lim: Limits, ops: seq<Op>) {
    ops == [] ||
    var before, op := ops[..|ops| - 1], ops[|ops| - 1];
    NoneLate(sha, lim, before) && !Late(sha, lim, before, op)
  }

  ghost predicate Kept(sha: Hash, lim: Limits, ops: seq<Op>) {
    && KeepsStarts(RealAfter(sha, lim, ops).starts, IdealAfter(sha, lim, ops).starts, k => StartPurge(sha, lim, ops, k))
    && KeepsSessions(RealAfter(sha, lim, ops).sessions, IdealAfter(sha, lim, ops).sessions, k => SessionPurge(sha, lim, ops, k))
  }

  lemma KeptContents(sha: Hash, lim: Limits, ops: seq<Op>)
    requires Kept(sha, lim, ops)
    ensures RealAfter(sha, lim, ops) == Contents(KeptStarts(sha, lim, ops), KeptSessions(sha, lim, ops))
  {
    hide RealAfter, IdealAfter, StartPurge, SessionPurge;
    var v, m := RealAfter(sha, lim, ops), IdealAfter(sha, lim, ops);
    var p, q := k => StartPurge(sha, lim, ops, k), k => SessionPurge(sha, lim, ops, k);
    assert forall k :: p(k) == StartPurge(sha, lim, ops, k) && q(k) == SessionPurge(sha, lim, ops, k);
    assert v.starts == KeptStarts(sha, lim, ops);
    assert v.sessions == KeptSessions(sha, lim, ops);
  }

  /** After operations that were all answered alike, the next one is, if and only if it does not come late. */
  lemma LateIsExact(sha: Hash, lim: Limits, ops: seq<Op>, op: Op)
    requires Kept(sha, lim, ops)
    ensures Alike(sha, lim, RealAfter(sha, lim, ops), IdealAfter(sha, lim, ops), op) <==> !Late(sha, lim, ops, op)
  {
    hide RealAfter, IdealAfter, StartPurge, SessionPurge, KeptStarts, KeptSessions, LiveStarts, LiveSessions, Apply, Ideal, Alike;
    var v, m := RealAfter(sha, lim, ops), IdealAfter(sha, lim, ops);
    var p, q := k => StartPurge(sha, lim, ops, k), k => SessionPurge(sha, lim, ops, k);
    KeptContents(sha, lim, ops);
    if op.CreateStart? {
      CreateStartAlike(sha, lim, v, m, op, p);
    } else if op.ClaimStart? {
      ClaimStartAlike(sha, lim, v, m, op, p);
    } else if op.CreateSession? {
      CreateSessionAlike(sha, lim, v, m, op, q);
    } else if op.GetSession? || op.EndSession? {
      UseSessionAlike(sha, lim, v, m, op, q);
    } else {
      CleanupAlike(sha, lim, v, m, op);
    }
  }

  lemma CleanupAlike(sha: Hash, lim: Limits, v: Contents, m: Contents, op: Op)
    requires op.Cleanup?
    ensures Alike(sha, lim, v, m, op)
  {
  }

  lemma KeptAfter(sha: Hash, lim: Limits, ops: seq<Op>)
    requires ops != [] && Kept(sha, lim, ops[..|ops| - 1])
    requires var before := ops[..|ops| - 1]; Alike(sha, lim, RealAfter(sha, lim, before), IdealAfter(sha, lim, before), ops[|ops| - 1])
    ensures Kept(sha, lim, ops)
  {
    hide Apply, Ideal, Alike, StartPurgeAfter, SessionPurgeAfter, KeepsStarts, KeepsSessions;
    var before, op := ops[..|ops| - 1], ops[|ops| - 1];
    var v, m := RealAfter(sha, lim, before), IdealAfter(sha, lim, before);
    StartsAfter(sha, lim, v, m, op, k => StartPurge(sha, lim, before, k), k => StartPurge(sha, lim, ops, k));
    SessionsAfter(sha, lim, v, m, op, k => SessionPurge(sha, lim, before, k), k => SessionPurge(sha, lim, ops, k));
  }

  /**
    For every sequence of operations with any times: all are answered as by maps that are never
    cleaned if and only if none of them comes late.
  */
  lemma {:induction false} AlikeUnlessLate(sha: Hash, lim: Limits, ops: seq<Op>)
    ensures AllAlike(sha, lim, ops) <==> NoneLate(sha, lim, ops)
    ensures AllAlike(sha, lim, ops) ==> Kept(sha, lim, ops)
    decreases |ops|
  {
    hide RealAfter, IdealAfter, Alike, Late, Kept;
    if ops == [] {
      NothingKept(sha, lim);
    } else {
      var before, op := ops[..|ops| - 1], ops[|ops| - 1];
      AlikeUnlessLate(sha, lim, before);
      if AllAlike(sha, lim, before) {
        LateIsExact(sha, lim, before, op);
        if Alike(sha, lim, RealAfter(sha, lim, before), IdealAfter(sha, lim, before), op) {
          KeptAfter(sha, lim, ops);
        }
      }
    }
  }

  lemma NothingKept(sha: Hash, lim: Limits)
    ensures Kept(sha, lim, [])
  {
  }

  // ----- times in order -----

  lemma {:induction false} PurgesArePast(sha: Hash, lim: Limits, ops: seq<Op>, k: string)
    requires InOrder(ops)
    ensures StartPurge(sha, lim, ops, k) <= LastTime(ops) && SessionPurge(sha, lim, ops, k) <= LastTime(ops)
    decreases |ops|
  {
    hide Ideal, IdealAfter, ValidPostLoginPath;
    if ops != [] {
      PurgesArePast(sha, lim, ops[..|ops| - 1], k);
    }
  }

  lemma LiveIsKept(sha: Hash, lim: Limits, ops: seq<Op>, now: u64)
    requires InOrder(ops) && LastTime(ops) <= now
    ensures LiveStarts(KeptStarts(sha, lim, ops), now) == LiveStarts(IdealAfter(sha, lim, ops).starts, now)
    ensures LiveSessions(KeptSessions(sha, lim, ops), now) == LiveSessions(IdealAfter(sha, lim, ops).sessions, now)
  {
    hide IdealAfter, StartPurge, SessionPurge, InOrder, LastTime;
    forall k
      ensures StartPurge(sha, lim, ops, k) <= now && SessionPurge(sha, lim, ops, k) <= now
    {
      PurgesArePast(sha, lim, ops, k);
    }
  }

  /** Operations in order of time never come late. */
  lemma {:induction false} InOrderIsNeverLate(sha: Hash, lim: Limits, ops: seq<Op>)
    requires InOrder(ops)
    ensures NoneLate(sha, lim, ops)
    decreases |ops|
  {
    if ops != [] {
      var before, op := ops[..|ops| - 1], ops[|ops| - 1];
      InOrderIsNeverLate(sha, lim, before);
      hide IdealAfter, StartPurge, SessionPurge, KeptStarts, KeptSessions, LiveStarts, LiveSessions, ValidPostLoginPath;
      LiveIsKept(sha, lim, before, op.now);
      PurgesArePast(sha, lim, before, if op.ClaimStart? then op.state else if op.GetSession? || op.EndSession? then op.reference else "");
    }
  }

  /**
    In particular, after operations in order of time, a claim with any time is answered as in the
    simple model if and only if its login start did not expire between that time and the latest
    cleanup, creation or claim that looked at it.
  */
  lemma LateClaim(sha: Hash, lim: Limits, ops: seq<Op>, state: string, context: string, now: u64)
    requires InOrder(ops)
    ensures var m := IdealAfter(sha, lim, ops);
            Alike(sha, lim, RealAfter(sha, lim, ops), m, ClaimStart(state, context, now))
            <==> !(state in m.starts && now < m.starts[state].expiresAt <= StartPurge(sha, lim, ops, state))
  {
    hide RealAfter, IdealAfter, StartPurge, Alike, InOrder, Kept;
    InOrderIsNeverLate(sha, lim, ops);
    AlikeUnlessLate(sha, lim, ops);
    LateIsExact(sha, lim, ops, ClaimStart(state, context, now));
  }
}
