/** Which HTTP status the handlers give, told by what Redis holds. */
module Responses {
  import opened Common
  import opened Decimal
  import opened References
  import opened Records
  import opened Answers
  import opened Protocol
  import opened Runs
  import opened RunTheorems
  import opened Eviction

  predicate Waits(s: State, l: string) {
    && l in s.store.externals && s.store.externals[l].status == Waiting && s.clock < s.store.externals[l].expiresAt
  }

  /** Google's callback goes on, 302, exactly with a transaction that waits; it is refused, 400, for one that is gone or used. */
  lemma ClaimStatusMeans(s: State, l: string)
    requires l in s.store.externals ==> ExternalSafe(s.store.externals[l])
    ensures ClaimStatus(AnswerTo(s, Claim(l))) == if Waits(s, l) then 302 else 400
  {
  }

  /** A time beyond what the scripts hold is the only reason for 503. */
  lemma ClaimIsUnavailable(s: State, l: string)
    ensures ClaimStatus(AnswerTo(s, Claim(l))) == 503 <==> l in s.store.externals && !ExternalSafe(s.store.externals[l])
  {
  }

  predicate CanExchange(s: State, h: string, serviceId: string, challenge: string) {
    && h in s.store.handoffs
    && var r := s.store.handoffs[h];
    && r.status == Unused && s.clock < r.expiresAt && r.serviceId == serviceId && r.codeChallenge == challenge
    && r.commonSessionLookup in s.store.sessions && s.clock < s.store.sessions[r.commonSessionLookup].expiresAt
  }

  /** After any run, an exchange done in one piece succeeds, 200, exactly if it can, and is refused, 400, otherwise. */
  lemma ExchangeStatusMeans(g: Log, h: string, serviceId: string, challenge: string)
    requires Coherent(g)
    ensures ExchangeStatus(AtomicExchange(g.state, h, serviceId, challenge).1) == if CanExchange(g.state, h, serviceId, challenge) then 200 else 400
  {
    hide ExternalsAsWritten;
    if h in g.state.store.handoffs {
      var r := g.state.store.handoffs[h];
      var l := r.commonSessionLookup;
      assert SameButStatus(r, g.issued[h]) && Fits(g.issued[h], l, g.created[l]);
      if l in g.state.store.sessions {
        assert g.state.store.sessions[l] == g.created[l];
      }
    }
  }

  predicate Pending(s: State, o: string) {
    && o in s.store.logouts && s.store.logouts[o].status == Unused && s.clock < s.store.logouts[o].expiresAt
  }

  /** A logout redirects, 303, exactly for a pending transaction with its own token; is forbidden, 403, for another token; and is refused, 400, without one. */
  lemma LogoutStatusMeans(s: State, o: string, l: string, csrf: string)
    requires o in s.store.logouts ==> LogoutSafe(s.store.logouts[o])
    ensures LogoutStatus(AnswerTo(s, CompleteLogout(o, l, csrf)))
            == if !Pending(s, o) then 400 else if s.store.logouts[o].csrfLookup == csrf then 303 else 403
  {
  }

  /** And one that redirects, to the address of its transaction, has deleted the session that it names. */
  lemma LogoutDeletes(s: State, o: string, l: string, csrf: string)
    requires LogoutStatus(AnswerTo(s, CompleteLogout(o, l, csrf))) == 303
    ensures o in s.store.logouts && AnswerTo(s, CompleteLogout(o, l, csrf)) == LoggedOut(s.store.logouts[o].logoutReturnUri)
    ensures l !in Next(s, CompleteLogout(o, l, csrf)).store.sessions
    ensures forall k | k in s.store.sessions && k != l :: k in Next(s, CompleteLogout(o, l, csrf)).store.sessions
  {
  }

  /** A login with a session goes back to the service exactly if the script can issue its handoff. */
  lemma IssueTurnMeans(s: State, l: string, h: string, r: AuthenticationHandoff)
    requires l in s.store.sessions ==> SafeSession(s.store.sessions[l])
    requires h !in s.store.handoffs && (l in s.store.sessions ==> Fits(r, l, s.store.sessions[l]))
    ensures IssueTurn(AnswerTo(s, Issue(l, h, r)))
            == if l in s.store.sessions && s.clock < s.store.sessions[l].expiresAt && s.clock < r.expiresAt
               then RedirectToService else StartGoogleLogin
  {
  }
}
