/** The exchange requests of a run, step by step: each is answered as one atomic exchange. */
module ExchangeRequests {
  import opened Common
  import opened Decimal
  import opened References
  import opened Records
  import opened Answers
  import opened Protocol
  import opened Runs
  import opened RunTheorems
  import opened RunRefinement
  import opened System
  import opened Agreement
  import opened EndToEnd
  import opened History
  import Eviction
  import P = Portal
  import I = Identity
  import opened Responses
  import opened Logins
  import opened FirstLogin

  /** The request found the handoff. */
  predicate Types(cfg: Config, s: World, e: Event, pid: nat, r: ExchangeRequest) {
    e == ExchangeTypes(pid) && AnswerTo(s.log.state, TypeHandoff(LookupOf(cfg.sha, r.code))) == HandoffThere
  }

  /** The request, having found the handoff, read the lookup of its session. */
  predicate Looks(cfg: Config, s: World, e: Event, pid: nat, r: ExchangeRequest, l: string) {
    && e == ExchangeReads(pid) && pid in s.processes && s.processes[pid] == ExchangeTyped(r)
    && AnswerTo(s.log.state, ReadLookup(LookupOf(cfg.sha, r.code))) == LookupRead(l)
  }

  /** The request is answered: by a read that found nothing, or by the script. */
  predicate Replies(cfg: Config, s: World, e: Event, pid: nat, r: ExchangeRequest, a: Answer) {
    var h := LookupOf(cfg.sha, r.code);
    || (e == ExchangeTypes(pid) && a == AnswerTo(s.log.state, TypeHandoff(h)) && a != HandoffThere)
    || (e == ExchangeReads(pid) && pid in s.processes && s.processes[pid] == ExchangeTyped(r)
        && a == AnswerTo(s.log.state, ReadLookup(h)) && !a.LookupRead?)
    || (e == ExchangeRuns(pid) && pid in s.processes && s.processes[pid].ExchangeLookedUp? && s.processes[pid].request == r
        && a == AnswerTo(s.log.state, Exchange(h, r.serviceId, Challenge(cfg.sha, r.verifier), s.processes[pid].lookup)))
  }

  lemma NextRequest(cfg: Config, s: World, e: Event)
    requires Enabled(cfg, s, e) && Foundational(e)
    ensures var p := PlanOf(cfg, s, e).next;
            && (p.ExchangeTyped? ==> Types(cfg, s, e, e.pid, p.request))
            && (p.ExchangeLookedUp? ==> Looks(cfg, s, e, e.pid, p.request, p.lookup))
            && (p.ExchangeAnswered? ==> Replies(cfg, s, e, e.pid, p.request, p.answer))
  {
    hide LookupOf, Challenge, New, ValidQuery, AnswerTo;
  }

  lemma RequestStep(cfg: Config, s: World, e: Event, pid: nat)
    requires Enabled(cfg, s, e) && pid in Do(cfg, s, e).processes
    ensures var p := Do(cfg, s, e).processes[pid];
            && (p.ExchangeTyped? ==> (pid in s.processes && s.processes[pid] == p) || Types(cfg, s, e, pid, p.request))
            && (p.ExchangeLookedUp? ==> (pid in s.processes && s.processes[pid] == p) || Looks(cfg, s, e, pid, p.request, p.lookup))
            && (p.ExchangeAnswered? ==> (pid in s.processes && s.processes[pid] == p) || Replies(cfg, s, e, pid, p.request, p.answer))
  {
    hide Do, Enabled, PlanOf, Record, StartsLogin, ClaimsLogin, OpensSession, RequestFor, Types, Looks, Replies;
    EventEffect(cfg, s, e);
    if Foundational(e) && e.pid == pid {
      NextRequest(cfg, s, e);
    }
  }

  lemma {:induction false} TypedBy(cfg: Config, ss: seq<World>, es: seq<Event>, n: nat, pid: nat) returns (i: nat)
    requires IsRun(cfg, ss, es) && n <= |es| && pid in ss[n].processes && ss[n].processes[pid].ExchangeTyped?
    ensures i < n && Types(cfg, ss[i], es[i], pid, ss[n].processes[pid].request)
    decreases n
  {
    hide Do, Enabled, Types, Looks, Replies;
    RequestStep(cfg, ss[n - 1], es[n - 1], pid);
    if Types(cfg, ss[n - 1], es[n - 1], pid, ss[n].processes[pid].request) {
      return n - 1;
    }
    i := TypedBy(cfg, ss, es, n - 1, pid);
  }

  lemma {:induction false} LookedUpBy(cfg: Config, ss: seq<World>, es: seq<Event>, n: nat, pid: nat) returns (i: nat)
    requires IsRun(cfg, ss, es) && n <= |es| && pid in ss[n].processes && ss[n].processes[pid].ExchangeLookedUp?
    ensures i < n && Looks(cfg, ss[i], es[i], pid, ss[n].processes[pid].request, ss[n].processes[pid].lookup)
    decreases n
  {
    hide Do, Enabled, Types, Looks, Replies;
    RequestStep(cfg, ss[n - 1], es[n - 1], pid);
    if Looks(cfg, ss[n - 1], es[n - 1], pid, ss[n].processes[pid].request, ss[n].processes[pid].lookup) {
      return n - 1;
    }
    i := LookedUpBy(cfg, ss, es, n - 1, pid);
  }

  lemma {:induction false} RequestAnsweredBy(cfg: Config, ss: seq<World>, es: seq<Event>, n: nat, pid: nat) returns (i: nat)
    requires IsRun(cfg, ss, es) && n <= |es| && pid in ss[n].processes && ss[n].processes[pid].ExchangeAnswered?
    ensures i < n && Replies(cfg, ss[i], es[i], pid, ss[n].processes[pid].request, ss[n].processes[pid].answer)
    decreases n
  {
    hide Do, Enabled, Types, Looks, Replies;
    RequestStep(cfg, ss[n - 1], es[n - 1], pid);
    if Replies(cfg, ss[n - 1], es[n - 1], pid, ss[n].processes[pid].request, ss[n].processes[pid].answer) {
      return n - 1;
    }
    i := RequestAnsweredBy(cfg, ss, es, n - 1, pid);
  }

  /** The answer of a request is that of TYPE, HGET and script at three moments of the run. */
  lemma AnswersAreSplit(cfg: Config, ss: seq<World>, es: seq<Event>, n: nat, pid: nat) returns (i: nat, j: nat, k: nat)
    requires IsRun(cfg, ss, es) && n <= |es| && pid in ss[n].processes && ss[n].processes[pid].ExchangeAnswered?
    ensures i <= j <= k < n
    ensures var r := ss[n].processes[pid].request;
            ss[n].processes[pid].answer
            == SplitExchange(ss[i].log.state, ss[j].log.state, ss[k].log.state, LookupOf(cfg.sha, r.code), r.serviceId, Challenge(cfg.sha, r.verifier)).1
  {
    hide Do, Enabled, AnswerTo, Next, LookupOf, Challenge;
    k := RequestAnsweredBy(cfg, ss, es, n, pid);
    i, j := k, k;
    if es[k] == ExchangeReads(pid) {
      i := TypedBy(cfg, ss, es, k, pid);
    } else if es[k] == ExchangeRuns(pid) {
      j := LookedUpBy(cfg, ss, es, k, pid);
      i := TypedBy(cfg, ss, es, j, pid);
    }
  }

  lemma CommandsStep(cfg: Config, s: World, e: Event)
    requires Enabled(cfg, s, e)
    ensures s.commands <= Do(cfg, s, e).commands
  {
    hide PlanOf, Record, Succeeds, P.Apply, I.Apply, Enabled;
  }

  lemma {:induction false} CommandsGrow(cfg: Config, ss: seq<World>, es: seq<Event>, m: nat, n: nat)
    requires IsRun(cfg, ss, es) && m <= n <= |es|
    ensures ss[m].commands <= ss[n].commands
    decreases n
  {
    hide Do, Enabled;
    if m < n {
      CommandsGrow(cfg, ss, es, m, n - 1);
      CommandsStep(cfg, ss[n - 1], es[n - 1]);
    }
  }

  lemma LogIsOfCommands(cfg: Config, s: World)
    requires RedisOk(cfg, s)
    ensures Fresh(s.commands) && After(s.commands) == s.log.state && Coherent(s.log)
  {
    hide LogOf, Sendable, Coherent, TimesKept, Lookups, Fresh;
    SendableIsFresh(s.commands);
  }

  /**
    In every run, a request that has been answered was answered as one atomic exchange at the moment of
    its last command: 200 if the handoff was there for its service and verifier, unused, unexpired and
    with its session, and 400 otherwise; but 503, and nothing done, exactly if the handoff was there for
    its TYPE and gone for its HGET.
  */
  lemma RequestsAreAnsweredAtomically(cfg: Config, ss: seq<World>, es: seq<Event>, n: nat, pid: nat)
    returns (i: nat, j: nat, k: nat)
    requires CollisionFreeRun(cfg, ss, es) && n <= |es| && pid in ss[n].processes && ss[n].processes[pid].ExchangeAnswered?
    ensures i <= j <= k < n
    ensures var r, h := ss[n].processes[pid].request, LookupOf(cfg.sha, ss[n].processes[pid].request.code);
            var typed, looked := h in ss[i].log.state.store.handoffs, h in ss[j].log.state.store.handoffs;
            Eviction.ExchangeStatus(ss[n].processes[pid].answer)
            == if typed && !looked then 503
               else if typed && CanExchange(ss[k].log.state, h, r.serviceId, Challenge(cfg.sha, r.verifier)) then 200
               else 400
  {
    hide Do, Enabled, AnswerTo, Next, LookupOf, Challenge, SplitExchange, AtomicExchange, Inv, Fresh, CanExchange, Coherent, RedisOk, ProcessesOk,
         StartsOk, WaitingOk, RequestsOk, MadeOk, SessionsOk, CollisionFree;
    i, j, k := AnswersAreSplit(cfg, ss, es, n, pid);
    var r, h := ss[n].processes[pid].request, LookupOf(cfg.sha, ss[n].processes[pid].request.code);
    KnownCommands(cfg, ss, es, i);
    KnownCommands(cfg, ss, es, j);
    KnownCommands(cfg, ss, es, k);
    CommandsGrow(cfg, ss, es, i, j);
    CommandsGrow(cfg, ss, es, j, k);
    SplitExchangeIsAtomic(ss[i].commands, ss[j].commands, ss[k].commands, h, r.serviceId, Challenge(cfg.sha, r.verifier));
    ExchangeStatusMeans(ss[k].log, h, r.serviceId, Challenge(cfg.sha, r.verifier));
  }

  lemma KnownCommands(cfg: Config, ss: seq<World>, es: seq<Event>, n: nat)
    requires CollisionFreeRun(cfg, ss, es) && n <= |es|
    ensures Fresh(ss[n].commands) && After(ss[n].commands) == ss[n].log.state && Coherent(ss[n].log)
  {
    hide Do, Enabled, LogOf, Fresh, Coherent, CollisionFree, RedisOk, ProcessesOk, StartsOk, WaitingOk, RequestsOk, MadeOk, SessionsOk;
    RunKeepsInv(cfg, ss, es, n);
    LogIsOfCommands(cfg, ss[n]);
  }

  // ----- and each can be -----

  lemma RequestArrives(cfg: Config, s: World, pid: nat, r: ExchangeRequest)
    requires pid !in s.processes && IsFixedReference(r.code) && IsCodeVerifier(r.verifier)
    ensures var e := ExchangeArrives(pid, r);
            && Enabled(cfg, s, e)
            && Do(cfg, s, e).log == s.log && Do(cfg, s, e).processes == s.processes[pid := ExchangeStarted(r)]
            && Do(cfg, s, e).references == s.references
  {
    hide IsFixedReference, IsCodeVerifier;
  }

  lemma TypePlan(cfg: Config, s: World, pid: nat, r: ExchangeRequest)
    requires pid in s.processes && s.processes[pid] == ExchangeStarted(r)
    ensures var e, h, there := ExchangeTypes(pid), LookupOf(cfg.sha, r.code), LookupOf(cfg.sha, r.code) in s.log.state.store.handoffs;
            && Enabled(cfg, s, e) && Next(s.log.state, TypeHandoff(h)) == s.log.state
            && PlanOf(cfg, s, e) == Plan(TypeHandoff(h), if there then ExchangeTyped(r) else ExchangeAnswered(r, Failed(NotFound)), {})
  {
    hide LookupOf;
  }

  lemma ReadPlan(cfg: Config, s: World, pid: nat, r: ExchangeRequest)
    requires pid in s.processes && s.processes[pid] == ExchangeTyped(r) && LookupOf(cfg.sha, r.code) in s.log.state.store.handoffs
    ensures var e, h := ExchangeReads(pid), LookupOf(cfg.sha, r.code);
            && Enabled(cfg, s, e) && Next(s.log.state, ReadLookup(h)) == s.log.state
            && PlanOf(cfg, s, e) == Plan(ReadLookup(h), ExchangeLookedUp(r, s.log.state.store.handoffs[h].commonSessionLookup), {})
  {
    hide LookupOf;
  }

  lemma RunPlan(cfg: Config, s: World, pid: nat, r: ExchangeRequest, l: string)
    requires pid in s.processes && s.processes[pid] == ExchangeLookedUp(r, l)
    ensures var e := ExchangeRuns(pid);
            var c := Exchange(LookupOf(cfg.sha, r.code), r.serviceId, Challenge(cfg.sha, r.verifier), l);
            && Enabled(cfg, s, e) && PlanOf(cfg, s, e) == Plan(c, ExchangeAnswered(r, AnswerTo(s.log.state, c)), {})
  {
    hide LookupOf, Challenge, AnswerTo;
  }

  /** The request reads that the handoff is there, and where its session is. */
  lemma RequestReads(cfg: Config, ss0: seq<World>, es0: seq<Event>, ss: seq<World>, es: seq<Event>, s: World, pid: nat, r: ExchangeRequest)
    returns (ss': seq<World>, es': seq<Event>, s': World)
    requires Reaches(cfg, ss0, es0, ss, es, s) && pid in s.processes && s.processes[pid] == ExchangeStarted(r)
    ensures Reaches(cfg, ss0, es0, ss', es', s') && s'.log.state == s.log.state && s'.references == s.references && pid in s'.processes
    ensures var h := LookupOf(cfg.sha, r.code);
            s'.processes[pid] == if h in s.log.state.store.handoffs
                                 then ExchangeLookedUp(r, s.log.state.store.handoffs[h].commonSessionLookup)
                                 else ExchangeAnswered(r, Failed(NotFound))
  {
    hide Do, Enabled, PlanOf, Reaches, LookupOf, Next, Succeeds;
    TypePlan(cfg, s, pid, r);
    FoundationEffect(cfg, s, ExchangeTypes(pid));
    ss', es', s' := Logins.Step(cfg, ss0, es0, ss, es, s, ExchangeTypes(pid));
    if LookupOf(cfg.sha, r.code) in s.log.state.store.handoffs {
      ReadPlan(cfg, s', pid, r);
      FoundationEffect(cfg, s', ExchangeReads(pid));
      ss', es', s' := Logins.Step(cfg, ss0, es0, ss', es', s', ExchangeReads(pid));
    }
  }

  /**
    Every run can be continued by any service's exchange request, to its answer: what one atomic exchange
    gives at that moment, 200 exactly if it can.
  */
  lemma AnyRequestIsAnswered(cfg: Config, ss: seq<World>, es: seq<Event>, pid: nat, r: ExchangeRequest)
    returns (ss': seq<World>, es': seq<Event>)
    requires CollisionFreeRun(cfg, ss, es) && pid !in ss[|es|].processes && IsFixedReference(r.code) && IsCodeVerifier(r.verifier)
    ensures CollisionFreeRun(cfg, ss', es') && es <= es' && ss <= ss' && |ss'| == |es'| + 1
    ensures pid in ss'[|es'|].processes && ss'[|es'|].processes[pid].ExchangeAnswered? && ss'[|es'|].processes[pid].request == r
    ensures var h, challenge, before := LookupOf(cfg.sha, r.code), Challenge(cfg.sha, r.verifier), ss[|es|].log.state;
            && ss'[|es'|].processes[pid].answer == AtomicExchange(before, h, r.serviceId, challenge).1
            && ss'[|es'|].log.state == AtomicExchange(before, h, r.serviceId, challenge).0
            && Eviction.ExchangeStatus(ss'[|es'|].processes[pid].answer) == if CanExchange(before, h, r.serviceId, challenge) then 200 else 400
  {
    hide Do, Enabled, PlanOf, Reaches, LookupOf, Next, Succeeds, Challenge, AnswerTo, IsFixedReference, IsCodeVerifier, CanExchange, Coherent,
         Fresh, LogOf, CollisionFree, IsRun;
    KnownCommands(cfg, ss, es, |es|);
    var s0 := Last(cfg, ss, es);
    Restarted(cfg, ss, es, s0);
    var h, challenge := LookupOf(cfg.sha, r.code), Challenge(cfg.sha, r.verifier);
    ExchangeStatusMeans(s0.log, h, r.serviceId, challenge);
    RequestArrives(cfg, s0, pid, r);
    var s;
    ss', es', s := Logins.Step(cfg, ss, es, ss, es, s0, ExchangeArrives(pid, r));
    ss', es', s := RequestReads(cfg, ss, es, ss', es', s, pid, r);
    if h in s0.log.state.store.handoffs {
      RunPlan(cfg, s, pid, r, s0.log.state.store.handoffs[h].commonSessionLookup);
      FoundationEffect(cfg, s, ExchangeRuns(pid));
      ss', es', s := Logins.Step(cfg, ss, es, ss', es', s, ExchangeRuns(pid));
    }
    Finished(cfg, ss, es, ss', es', s);
  }

  lemma Restarted(cfg: Config, ss: seq<World>, es: seq<Event>, s: World)
    requires CollisionFreeRun(cfg, ss, es) && s == ss[|es|]
    ensures Reaches(cfg, ss, es, ss, es, s) && CollisionFree(cfg.sha, s.references)
  {
    hide Do, Enabled, CollisionFree;
    Unmoved(cfg, ss, es);
  }
}
