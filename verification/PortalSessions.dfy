/** How long what the portal makes can be used: a login start for ten minutes, a session for eight hours. */
module PortalSessions {
  import opened Common
  import opened Decimal
  import opened References
  import opened Portal
  import opened PortalRefinement

  // ----- sessions -----

  /** The i-th operation makes the session `k`. */
  predicate Opens(sha: Hash, lim: Limits, ops: seq<Op>, i: nat, k: string)
    requires i < |ops|
  {
    && ops[i].CreateSession? && ops[i].reference == k
    && Apply(sha, lim, RealAfter(sha, lim, ops[..i]), ops[i]).outcome == SessionMade(k)
  }

  /** The i-th operation ends the session `k`: the logout handler with its tokens. */
  predicate Ends(sha: Hash, lim: Limits, ops: seq<Op>, i: nat, k: string)
    requires i < |ops|
  {
    ops[i].EndSession? && ops[i].reference == k && Apply(sha, lim, RealAfter(sha, lim, ops[..i]), ops[i]).outcome == LoggedOut
  }

  /** The session is on file while its time lasts, and nothing else is under its reference. */
  predicate OnFile(v: Contents, k: string, r: LocalSession, now: u64) {
    (now < r.expiresAt ==> k in v.sessions) && (k in v.sessions ==> v.sessions[k] == r)
  }

  lemma OpenedOnFile(sha: Hash, lim: Limits, v: Contents, op: Op)
    requires op.CreateSession? && Apply(sha, lim, v, op).outcome.SessionMade?
    ensures op.now + 28800 <= U64_MAX
    ensures OnFile(Apply(sha, lim, v, op).contents, op.reference,
                   LocalSession(op.internalUserId, op.authenticatedAt, op.now, op.now + 28800, sha(op.csrf)), op.now)
  {
    hide LiveStarts;
  }

  lemma StaysOnFile(sha: Hash, lim: Limits, v: Contents, op: Op, k: string, r: LocalSession, before: u64)
    requires OnFile(v, k, r, before) && before <= op.now
    requires op.CreateSession? && op.reference == k ==> !Apply(sha, lim, v, op).outcome.SessionMade?
    requires op.EndSession? && op.reference == k ==> !Apply(sha, lim, v, op).outcome.LoggedOut?
    ensures OnFile(Apply(sha, lim, v, op).contents, k, r, op.now)
  {
    hide LiveStarts, ValidPostLoginPath, Challenge;
  }

  lemma {:induction false} OpenedStaysOnFile(sha: Hash, lim: Limits, ops: seq<Op>, i: nat, k: string)
    requires i < |ops| && InOrder(ops) && Opens(sha, lim, ops, i, k)
    requires forall j | i < j < |ops| :: !Opens(sha, lim, ops, j, k) && !Ends(sha, lim, ops, j, k)
    ensures ops[i].now + 28800 <= U64_MAX
    ensures OnFile(RealAfter(sha, lim, ops), k,
                   LocalSession(ops[i].internalUserId, ops[i].authenticatedAt, ops[i].now, ops[i].now + 28800, sha(ops[i].csrf)), LastTime(ops))
    decreases |ops|
  {
    hide Apply, OnFile;
    var before, op := ops[..|ops| - 1], ops[|ops| - 1];
    OpenedOnFile(sha, lim, RealAfter(sha, lim, ops[..i]), ops[i]);
    if i == |ops| - 1 {
      assert ops[..i] == before;
    } else {
      assert before[..i] == ops[..i];
      forall j | i < j < |before|
        ensures !Opens(sha, lim, before, j, k) && !Ends(sha, lim, before, j, k)
      {
        assert before[..j] == ops[..j] && !Opens(sha, lim, ops, j, k) && !Ends(sha, lim, ops, j, k);
      }
      OpenedStaysOnFile(sha, lim, before, i, k);
      assert ops[..|ops| - 1] == before && !Opens(sha, lim, ops, |ops| - 1, k) && !Ends(sha, lim, ops, |ops| - 1, k);
      EndsOrNot(sha, lim, RealAfter(sha, lim, before), op);
      StaysOnFile(sha, lim, RealAfter(sha, lim, before), op, k,
                  LocalSession(ops[i].internalUserId, ops[i].authenticatedAt, ops[i].now, ops[i].now + 28800, sha(ops[i].csrf)), LastTime(before));
    }
  }

  lemma EndsOrNot(sha: Hash, lim: Limits, v: Contents, op: Op)
    ensures op.CreateSession? && Apply(sha, lim, v, op).outcome.SessionMade? ==> Apply(sha, lim, v, op).outcome == SessionMade(op.reference)
  {
  }

  /**
    In any sequence of operations in order of time, a session that was made at some time, and neither
    made again nor ended by a logout, is found with its user exactly until 28800 seconds later.
  */
  lemma SessionLives(sha: Hash, lim: Limits, ops: seq<Op>, i: nat, k: string, t: u64)
    requires i < |ops| && InOrder(ops + [GetSession(k, t)]) && Opens(sha, lim, ops, i, k)
    requires forall j | i < j < |ops| :: !Opens(sha, lim, ops, j, k) && !Ends(sha, lim, ops, j, k)
    ensures var o := Apply(sha, lim, RealAfter(sha, lim, ops), GetSession(k, t)).outcome;
            if t < ops[i].now + 28800
            then o.SessionFound? && o.session.internalUserId == ops[i].internalUserId
                 && o.session.authenticatedAt == ops[i].authenticatedAt && o.session.csrfLookup == sha(ops[i].csrf)
            else o == NoSession
  {
    var all := ops + [GetSession(k, t)];
    assert forall j | 0 <= j < |ops| :: all[j] == ops[j];
    assert all[|ops|] == GetSession(k, t);
    OpenedStaysOnFile(sha, lim, ops, i, k);
  }

  // ----- login starts -----

  predicate Starts(sha: Hash, lim: Limits, ops: seq<Op>, i: nat, state: string)
    requires i < |ops|
  {
    ops[i].CreateStart? && ops[i].state == state && Apply(sha, lim, RealAfter(sha, lim, ops[..i]), ops[i]).outcome.Started?
  }

  predicate Claims(sha: Hash, lim: Limits, ops: seq<Op>, i: nat, state: string)
    requires i < |ops|
  {
    ops[i].ClaimStart? && ops[i].state == state && Apply(sha, lim, RealAfter(sha, lim, ops[..i]), ops[i]).outcome.StartClaimed?
  }

  predicate StartOnFile(v: Contents, state: string, r: LoginStart, now: u64) {
    (now < r.expiresAt ==> state in v.starts) && (state in v.starts ==> v.starts[state] == r)
  }

  lemma StartedOnFile(sha: Hash, lim: Limits, v: Contents, op: Op)
    requires op.CreateStart? && Apply(sha, lim, v, op).outcome.Started?
    ensures op.now + 600 <= U64_MAX
    ensures StartOnFile(Apply(sha, lim, v, op).contents, op.state,
                        LoginStart(op.browserContext, op.verifier, op.path, op.now, op.now + 600), op.now)
  {
    hide LiveSessions, ValidPostLoginPath, Challenge;
  }

  lemma StartStaysOnFile(sha: Hash, lim: Limits, v: Contents, op: Op, state: string, r: LoginStart, before: u64)
    requires StartOnFile(v, state, r, before) && before <= op.now
    requires op.CreateStart? && op.state == state ==> !Apply(sha, lim, v, op).outcome.Started?
    requires op.ClaimStart? && op.state == state ==> !Apply(sha, lim, v, op).outcome.StartClaimed?
    ensures StartOnFile(Apply(sha, lim, v, op).contents, state, r, op.now)
  {
    hide LiveSessions, ValidPostLoginPath, Challenge;
  }

  lemma {:induction false} StartedStaysOnFile(sha: Hash, lim: Limits, ops: seq<Op>, i: nat, state: string)
    requires i < |ops| && InOrder(ops) && Starts(sha, lim, ops, i, state)
    requires forall j | i < j < |ops| :: !Starts(sha, lim, ops, j, state) && !Claims(sha, lim, ops, j, state)
    ensures ops[i].now + 600 <= U64_MAX
    ensures StartOnFile(RealAfter(sha, lim, ops), state,
                        LoginStart(ops[i].browserContext, ops[i].verifier, ops[i].path, ops[i].now, ops[i].now + 600), LastTime(ops))
    decreases |ops|
  {
    hide Apply, StartOnFile;
    var before, op := ops[..|ops| - 1], ops[|ops| - 1];
    StartedOnFile(sha, lim, RealAfter(sha, lim, ops[..i]), ops[i]);
    if i == |ops| - 1 {
      assert ops[..i] == before;
    } else {
      assert before[..i] == ops[..i];
      forall j | i < j < |before|
        ensures !Starts(sha, lim, before, j, state) && !Claims(sha, lim, before, j, state)
      {
        assert before[..j] == ops[..j] && !Starts(sha, lim, ops, j, state) && !Claims(sha, lim, ops, j, state);
      }
      StartedStaysOnFile(sha, lim, before, i, state);
      assert ops[..|ops| - 1] == before && !Starts(sha, lim, ops, |ops| - 1, state) && !Claims(sha, lim, ops, |ops| - 1, state);
      StartStaysOnFile(sha, lim, RealAfter(sha, lim, before), op, state,
                       LoginStart(ops[i].browserContext, ops[i].verifier, ops[i].path, ops[i].now, ops[i].now + 600), LastTime(before));
    }
  }

  /**
    Likewise a login start, neither made again nor claimed, is claimed by its own browser, and gives
    its verifier and path, exactly until 600 seconds later; another browser is refused until then.
  */
  lemma StartLives(sha: Hash, lim: Limits, ops: seq<Op>, i: nat, state: string, context: string, t: u64)
    requires i < |ops| && InOrder(ops + [ClaimStart(state, context, t)]) && Starts(sha, lim, ops, i, state)
    requires forall j | i < j < |ops| :: !Starts(sha, lim, ops, j, state) && !Claims(sha, lim, ops, j, state)
    ensures var o := Blurred(Apply(sha, lim, RealAfter(sha, lim, ops), ClaimStart(state, context, t)).outcome);
            if t >= ops[i].now + 600 then o == Refused(NotFound)
            else if context != ops[i].browserContext then o == Refused(BrowserContextMismatch)
            else o.StartClaimed? && o.start.codeVerifier == ops[i].verifier && o.start.postLoginPath == ops[i].path
  {
    var all := ops + [ClaimStart(state, context, t)];
    assert forall j | 0 <= j < |ops| :: all[j] == ops[j];
    assert all[|ops|] == ClaimStart(state, context, t);
    StartedStaysOnFile(sha, lim, ops, i, state);
  }

  /** A path that the portal redirects to after a login is its own: no browser reads another host into it. */
  lemma PathIsLocal(path: string)
    requires ValidPostLoginPath(path)
    ensures 1 <= |path| <= 2048 && path[0] == '/'
    ensures forall rest: string :: path != "//" + rest && path != "/\\" + rest
  {
    forall rest: string
      ensures path != "//" + rest && path != "/\\" + rest
    {
      assert ("//" + rest)[1] == '/' && ("/\\" + rest)[1] == '\\';
    }
  }
}
