/**
  Resolving external identities: any number of resolvers, each reading, creating inside a
  transaction, and reading again after a unique conflict, over two tables with a primary key.
  Users may be enabled and disabled meanwhile; nothing is deleted.
*/
module Identity {
  import opened Common
  import opened Decimal

  datatype Identifier = Identifier(provider: string, subject: string)

  datatype PostgresAuthError = UserDisabled | DatabaseFailure | IdentityInconsistent

  datatype Result = Resolved(internalUserId: i32) | Refused(error: PostgresAuthError)

  /** Where a resolver stands between two statements. */
  datatype Resolver =
    | Reading(who: Identifier)
    | Creating(who: Identifier)
    | UserInserted(who: Identifier, id: i32)
    | IdentityInserted(who: Identifier, id: i32)
    | Conflicted(who: Identifier)
    | Rereading(who: Identifier)
    | Finished(who: Identifier, result: Result)

  /** Committed rows, the identity sequence, and the resolvers with their open transactions. */
  datatype Database = Database(
    users: map<i32, bool>,
    identities: map<Identifier, i32>,
    nextId: nat,
    resolvers: map<nat, Resolver>)

  datatype Event =
    | Arrive(pid: nat, who: Identifier)
    | Read(pid: nat)
    | InsertUser(pid: nat)
    | InsertIdentity(pid: nat)
    | Commit(pid: nat)
    | CommitUnanswered(pid: nat, applied: bool)
    | Rollback(pid: nat)
    | Reread(pid: nat)
    | Fail(pid: nat)
    | SetEnabled(id: i32, enabled: bool)

  function Put(db: Database, pid: nat, r: Resolver): Database {
    db.(resolvers := db.resolvers[pid := r])
  }

  /** `read_external_identity_with_user` and what both callers make of a row. */
  function RowResult(db: Database, who: Identifier): Result
    requires who in db.identities
  {
    var id := db.identities[who];
    if id !in db.users then Refused(IdentityInconsistent)
    else if db.users[id] then Resolved(id)
    else Refused(UserDisabled)
  }

  predicate At(db: Database, pid: nat) {
    pid in db.resolvers
  }

  /** Some open transaction holds the key: an insert of the same key waits for it. */
  predicate KeyHeld(db: Database, who: Identifier) {
    exists p | p in db.resolvers :: db.resolvers[p].IdentityInserted? && db.resolvers[p].who == who
  }

  predicate Enabled(db: Database, e: Event) {
    match e
    case Arrive(pid, _) => !At(db, pid)
    case Read(pid) => At(db, pid) && db.resolvers[pid].Reading?
    case InsertUser(pid) => At(db, pid) && db.resolvers[pid].Creating? && db.nextId <= I32_MAX
    case InsertIdentity(pid) =>
      && At(db, pid) && db.resolvers[pid].UserInserted?
      && db.resolvers[pid].who.provider != "" && db.resolvers[pid].who.subject != ""
      && !KeyHeld(db, db.resolvers[pid].who)
    case Commit(pid) => At(db, pid) && db.resolvers[pid].IdentityInserted?
    case CommitUnanswered(pid, _) => At(db, pid) && db.resolvers[pid].IdentityInserted?
    case Rollback(pid) => At(db, pid) && db.resolvers[pid].Conflicted?
    case Reread(pid) => At(db, pid) && db.resolvers[pid].Rereading?
    case Fail(pid) => At(db, pid) && !db.resolvers[pid].Finished?
    case SetEnabled(id, _) => id in db.users
  }

  function Apply(db: Database, e: Event): Database
    requires Enabled(db, e)
  {
    match e
    case Arrive(pid, who) => Put(db, pid, Reading(who))
    case Read(pid) =>
      var who := db.resolvers[pid].who;
      Put(db, pid, if who in db.identities then Finished(who, RowResult(db, who)) else Creating(who))
    case InsertUser(pid) =>
      Put(db, pid, UserInserted(db.resolvers[pid].who, db.nextId)).(nextId := db.nextId + 1)
    case InsertIdentity(pid) =>
      var who := db.resolvers[pid].who;
      Put(db, pid, if who in db.identities then Conflicted(who) else IdentityInserted(who, db.resolvers[pid].id))
    case Commit(pid) => Committed(db, pid, Resolved(db.resolvers[pid].id))
    case CommitUnanswered(pid, applied) =>
      if applied then Committed(db, pid, Refused(DatabaseFailure))
      else Put(db, pid, Finished(db.resolvers[pid].who, Refused(DatabaseFailure)))
    case Rollback(pid) => Put(db, pid, Rereading(db.resolvers[pid].who))
    case Reread(pid) =>
      var who := db.resolvers[pid].who;
      Put(db, pid, Finished(who, if who in db.identities then RowResult(db, who) else Refused(IdentityInconsistent)))
    case Fail(pid) => Put(db, pid, Finished(db.resolvers[pid].who, Refused(DatabaseFailure)))
    case SetEnabled(id, enabled) => db.(users := db.users[id := enabled])
  }

  /** Both rows of a transaction become visible together. */
  function Committed(db: Database, pid: nat, result: Result): Database
    requires pid in db.resolvers && db.resolvers[pid].IdentityInserted?
  {
    var r := db.resolvers[pid];
    Put(db.(users := db.users[r.id := true], identities := db.identities[r.who := r.id]), pid, Finished(r.who, result))
  }

  // ----- the invariant -----

  predicate Pending(r: Resolver) {
    r.UserInserted? || r.IdentityInserted?
  }

  /** Identities point to users, one each, and there are as many. */
  ghost predicate TablesMatch(db: Database) {
    && (forall w | w in db.identities :: db.identities[w] in db.users)
    && (forall w, w' | w in db.identities && w' in db.identities && w != w' :: db.identities[w] != db.identities[w'])
    && |db.users| == |db.identities|
    && (forall id | id in db.users :: id < db.nextId)
  }

  /** Ids in open transactions are new and different; keys in open transactions are new and different. */
  ghost predicate TransactionsApart(db: Database) {
    && (forall p | p in db.resolvers && Pending(db.resolvers[p]) ::
          db.resolvers[p].id < db.nextId && db.resolvers[p].id !in db.users)
    && (forall p, q | p in db.resolvers && q in db.resolvers && p != q && Pending(db.resolvers[p]) && Pending(db.resolvers[q]) ::
          db.resolvers[p].id != db.resolvers[q].id)
    && (forall p | p in db.resolvers && db.resolvers[p].IdentityInserted? :: db.resolvers[p].who !in db.identities)
    && (forall p, q | p in db.resolvers && q in db.resolvers && p != q
                      && db.resolvers[p].IdentityInserted? && db.resolvers[q].IdentityInserted? ::
          db.resolvers[p].who != db.resolvers[q].who)
  }

  /** After a conflict the identity is there; a success is the row; the tables were never found inconsistent. */
  predicate Right(db: Database, r: Resolver) {
    && (r.Conflicted? || r.Rereading? ==> r.who in db.identities)
    && (r.Finished? && r.result.Resolved? ==> r.who in db.identities && db.identities[r.who] == r.result.internalUserId)
    && (r.Finished? ==> r.result != Refused(IdentityInconsistent))
  }

  ghost predicate ResultsRight(db: Database) {
    forall p | p in db.resolvers :: Right(db, db.resolvers[p])
  }

  ghost predicate Inv(db: Database) {
    TablesMatch(db) && TransactionsApart(db) && ResultsRight(db)
  }

  lemma CommitMatches(db: Database, pid: nat, result: Result)
    requires TablesMatch(db) && pid in db.resolvers && db.resolvers[pid].IdentityInserted?
    requires db.resolvers[pid].id !in db.users && db.resolvers[pid].id < db.nextId
    requires db.resolvers[pid].who !in db.identities
    ensures TablesMatch(Committed(db, pid, result))
  {
    var r, db' := db.resolvers[pid], Committed(db, pid, result);
    OneMore(db.users, r.id, true);
    OneMore(db.identities, r.who, r.id);
    assert db'.users == db.users[r.id := true] && db'.identities == db.identities[r.who := r.id];
  }

  lemma CommitKeepsApart(db: Database, pid: nat, result: Result)
    requires TransactionsApart(db) && pid in db.resolvers && db.resolvers[pid].IdentityInserted?
    ensures TransactionsApart(Committed(db, pid, result))
  {
  }

  lemma CommitIsRight(db: Database, pid: nat, result: Result)
    requires ResultsRight(db) && pid in db.resolvers && db.resolvers[pid].IdentityInserted?
    requires db.resolvers[pid].who !in db.identities
    requires result == Resolved(db.resolvers[pid].id) || result == Refused(DatabaseFailure)
    ensures ResultsRight(Committed(db, pid, result))
  {
  }

  lemma CommitKeepsInv(db: Database, pid: nat, result: Result)
    requires Inv(db) && pid in db.resolvers && db.resolvers[pid].IdentityInserted?
    requires result == Resolved(db.resolvers[pid].id) || result == Refused(DatabaseFailure)
    ensures Inv(Committed(db, pid, result))
  {
    assert Pending(db.resolvers[pid]);
    CommitMatches(db, pid, result);
    CommitKeepsApart(db, pid, result);
    CommitIsRight(db, pid, result);
  }

  /** A resolver that leaves its transaction, or has none, disturbs nobody. */
  lemma PutKeepsInv(db: Database, pid: nat, r: Resolver)
    requires Inv(db) && !Pending(r) && Right(db, r)
    ensures Inv(Put(db, pid, r))
  {
  }

  lemma ReadKeepsInv(db: Database, e: Event)
    requires Inv(db) && Enabled(db, e) && (e.Read? || e.Reread?)
    ensures Inv(Apply(db, e))
  {
    PutKeepsInv(db, e.pid, Apply(db, e).resolvers[e.pid]);
  }

  lemma InsertUserKeepsInv(db: Database, pid: nat)
    requires Inv(db) && Enabled(db, InsertUser(pid))
    ensures Inv(Apply(db, InsertUser(pid)))
  {
  }

  lemma InsertIdentityKeepsInv(db: Database, pid: nat)
    requires Inv(db) && Enabled(db, InsertIdentity(pid))
    ensures Inv(Apply(db, InsertIdentity(pid)))
  {
    var who := db.resolvers[pid].who;
    if who in db.identities {
      PutKeepsInv(db, pid, Conflicted(who));
    } else {
      hide KeyHeld;
      HoldingKeepsInv(db, pid);
    }
  }

  /** A transaction that takes a free key that no other open transaction holds. */
  lemma HoldingKeepsInv(db: Database, pid: nat)
    requires Inv(db) && At(db, pid) && db.resolvers[pid].UserInserted?
    requires db.resolvers[pid].who !in db.identities && !KeyHeld(db, db.resolvers[pid].who)
    ensures Inv(Put(db, pid, IdentityInserted(db.resolvers[pid].who, db.resolvers[pid].id)))
  {
    hide Right;
    var r := db.resolvers[pid];
    var db' := Put(db, pid, IdentityInserted(r.who, r.id));
    forall p | p in db'.resolvers
      ensures Right(db', db'.resolvers[p])
    {
      RightWherever(db, db', db'.resolvers[p]);
    }
  }

  lemma RightWherever(db: Database, db': Database, r: Resolver)
    requires db'.identities == db.identities && (Right(db, r) || r.IdentityInserted?)
    ensures Right(db', r)
  {
  }

  lemma RestKeepsInv(db: Database, e: Event)
    requires Inv(db) && Enabled(db, e) && (e.Arrive? || e.Rollback? || e.Fail? || (e.CommitUnanswered? && !e.applied))
    ensures Inv(Apply(db, e))
  {
    PutKeepsInv(db, e.pid, Apply(db, e).resolvers[e.pid]);
  }

  lemma ToggleKeepsInv(db: Database, e: Event)
    requires Inv(db) && Enabled(db, e) && e.SetEnabled?
    ensures Inv(Apply(db, e))
  {
    assert Apply(db, e).users.Keys == db.users.Keys;
  }

  lemma StepKeepsInv(db: Database, e: Event)
    requires Inv(db) && Enabled(db, e)
    ensures Inv(Apply(db, e))
  {
    match e
    case Commit(pid) => CommitKeepsInv(db, pid, Resolved(db.resolvers[pid].id));
    case CommitUnanswered(pid, applied) =>
      if applied {
        CommitKeepsInv(db, pid, Refused(DatabaseFailure));
      } else {
        RestKeepsInv(db, e);
      }
    case Read(_) => ReadKeepsInv(db, e);
    case Reread(_) => ReadKeepsInv(db, e);
    case InsertUser(pid) => InsertUserKeepsInv(db, pid);
    case InsertIdentity(pid) => InsertIdentityKeepsInv(db, pid);
    case SetEnabled(_, _) => ToggleKeepsInv(db, e);
    case _ => RestKeepsInv(db, e);
  }

  // ----- runs -----

  const EMPTY: Database := Database(map[], map[], 1, map[])

  /** A run from empty tables: the database after each event. */
  ghost predicate IsRun(dbs: seq<Database>, es: seq<Event>) {
    && |dbs| == |es| + 1 && dbs[0] == EMPTY
    && (forall i | 0 <= i < |es| :: Enabled(dbs[i], es[i]) && dbs[i + 1] == Apply(dbs[i], es[i]))
  }

  lemma EmptyInv()
    ensures Inv(EMPTY)
  {
  }

  lemma {:induction false} RunKeepsInv(dbs: seq<Database>, es: seq<Event>, n: nat)
    requires IsRun(dbs, es) && n <= |es|
    ensures Inv(dbs[n])
    decreases n
  {
    if n > 0 {
      RunKeepsInv(dbs, es, n - 1);
      StepKeepsInv(dbs[n - 1], es[n - 1]);
    }
  }

  lemma IdentityStays(db: Database, e: Event, w: Identifier)
    requires Inv(db) && Enabled(db, e) && w in db.identities
    ensures w in Apply(db, e).identities && Apply(db, e).identities[w] == db.identities[w]
  {
    hide TablesMatch, ResultsRight;
  }

  // ----- disabled users -----

  /** A resolver that ends with a user ends with an enabled one; it is refused exactly for having read a disabled one. */
  lemma ResolverEnds(db: Database, e: Event, p: nat)
    requires Enabled(db, e) && p in db.resolvers && !db.resolvers[p].Finished?
    requires p in Apply(db, e).resolvers && Apply(db, e).resolvers[p].Finished?
    ensures var db', result, who := Apply(db, e), Apply(db, e).resolvers[p].result, db.resolvers[p].who;
            && (result.Resolved? ==> result.internalUserId in db'.users && db'.users[result.internalUserId])
            && (result == Refused(UserDisabled) <==>
                  (e == Read(p) || e == Reread(p)) && who in db.identities
                  && db.identities[who] in db.users && !db.users[db.identities[who]])
  {
    hide KeyHeld;
  }

  lemma ResolversEnd(dbs: seq<Database>, es: seq<Event>, n: nat, p: nat)
    requires IsRun(dbs, es) && n < |es| && p in dbs[n].resolvers && !dbs[n].resolvers[p].Finished?
    requires p in dbs[n + 1].resolvers && dbs[n + 1].resolvers[p].Finished?
    ensures var result, who := dbs[n + 1].resolvers[p].result, dbs[n].resolvers[p].who;
            && (result.Resolved? ==> result.internalUserId in dbs[n + 1].users && dbs[n + 1].users[result.internalUserId])
            && (result == Refused(UserDisabled) <==>
                  (es[n] == Read(p) || es[n] == Reread(p)) && who in dbs[n].identities
                  && dbs[n].identities[who] in dbs[n].users && !dbs[n].users[dbs[n].identities[who]])
  {
    hide Apply, Enabled;
    ResolverEnds(dbs[n], es[n], p);
  }

  /** The user of `who` is disabled, and a resolver for it, if there, has not been given it. */
  predicate Barred(db: Database, who: Identifier, id: i32, p: nat) {
    && who in db.identities && db.identities[who] == id && id in db.users && !db.users[id]
    && (p in db.resolvers && db.resolvers[p].who == who ==>
          db.resolvers[p] in {Reading(who), Finished(who, Refused(UserDisabled)), Finished(who, Refused(DatabaseFailure))})
  }

  lemma StaysBarred(db: Database, e: Event, who: Identifier, id: i32, p: nat)
    requires Inv(db) && Enabled(db, e) && e != SetEnabled(id, true) && Barred(db, who, id, p)
    ensures Barred(Apply(db, e), who, id, p)
  {
    hide TablesMatch, ResultsRight, KeyHeld;
    if e.Commit? || e.CommitUnanswered? {
      assert Pending(db.resolvers[e.pid]);
      assert db.resolvers[e.pid].id !in db.users && db.resolvers[e.pid].who !in db.identities;
    }
  }

  /**
    From a moment at which the user of an identity is disabled, until it is enabled again, no resolver
    for that identity that arrives then is given the user: it is refused, or fails.
  */
  lemma {:induction false} DisabledUsersAreRefused(dbs: seq<Database>, es: seq<Event>, m: nat, n: nat, who: Identifier, p: nat)
    requires IsRun(dbs, es) && m <= n <= |es| && who in dbs[m].identities && dbs[m].identities[who] in dbs[m].users
    requires !dbs[m].users[dbs[m].identities[who]] && p !in dbs[m].resolvers
    requires forall i | m <= i < n :: es[i] != SetEnabled(dbs[m].identities[who], true)
    ensures Barred(dbs[n], who, dbs[m].identities[who], p)
    decreases n
  {
    hide Apply, Enabled, Inv;
    if m < n {
      DisabledUsersAreRefused(dbs, es, m, n - 1, who, p);
      RunKeepsInv(dbs, es, n - 1);
      StaysBarred(dbs[n - 1], es[n - 1], who, dbs[m].identities[who], p);
    }
  }

  /** A resolver that lost a race ends with the winner's user, or is refused if that is disabled by then. */
  lemma ConflictEnds(db: Database, p: nat)
    requires Inv(db) && p in db.resolvers && db.resolvers[p].Conflicted?
    ensures Enabled(db, Rollback(p)) && Enabled(Apply(db, Rollback(p)), Reread(p))
    ensures var db', who := Apply(Apply(db, Rollback(p)), Reread(p)), db.resolvers[p].who;
            && who in db.identities && db.identities[who] in db.users
            && db'.resolvers[p] == Finished(who, if db.users[db.identities[who]] then Resolved(db.identities[who]) else Refused(UserDisabled))
            && db'.users == db.users && db'.identities == db.identities
  {
    hide TransactionsApart, KeyHeld;
    assert Right(db, db.resolvers[p]);
  }

  /** A resolver is for one identity all along. */
  lemma ResolverKeepsIdentity(db: Database, e: Event, p: nat)
    requires Enabled(db, e) && p in Apply(db, e).resolvers
    ensures (p in db.resolvers && Apply(db, e).resolvers[p].who == db.resolvers[p].who)
            || e == Arrive(p, Apply(db, e).resolvers[p].who)
  {
    hide KeyHeld;
  }

  /** Identities are never changed or removed. */
  lemma {:induction false} IdentitiesStay(dbs: seq<Database>, es: seq<Event>, m: nat, n: nat, w: Identifier)
    requires IsRun(dbs, es) && m <= n <= |es| && w in dbs[m].identities
    ensures w in dbs[n].identities && dbs[n].identities[w] == dbs[m].identities[w]
    decreases n
  {
    hide Apply, Enabled, Inv;
    if m < n {
      IdentitiesStay(dbs, es, m, n - 1, w);
      RunKeepsInv(dbs, es, n - 1);
      IdentityStays(dbs[n - 1], es[n - 1], w);
    }
  }

  /**
    In every run, two resolves that succeed, whenever they do, return the same id exactly if they
    were for the same identity.
  */
  lemma ResolutionIsAFunction(dbs: seq<Database>, es: seq<Event>, m: nat, n: nat, p: nat, q: nat)
    requires IsRun(dbs, es) && m <= n <= |es|
    requires p in dbs[m].resolvers && dbs[m].resolvers[p].Finished? && dbs[m].resolvers[p].result.Resolved?
    requires q in dbs[n].resolvers && dbs[n].resolvers[q].Finished? && dbs[n].resolvers[q].result.Resolved?
    ensures dbs[m].resolvers[p].result == dbs[n].resolvers[q].result <==> dbs[m].resolvers[p].who == dbs[n].resolvers[q].who
  {
    RunKeepsInv(dbs, es, m);
    RunKeepsInv(dbs, es, n);
    IdentitiesStay(dbs, es, m, n, dbs[m].resolvers[p].who);
  }

  /** In every run there are as many users as identities, and no resolver ends with IdentityInconsistent. */
  lemma TablesStayConsistent(dbs: seq<Database>, es: seq<Event>, n: nat, p: nat)
    requires IsRun(dbs, es) && n <= |es|
    ensures |dbs[n].users| == |dbs[n].identities|
    ensures p in dbs[n].resolvers ==> dbs[n].resolvers[p] != Finished(dbs[n].resolvers[p].who, Refused(IdentityInconsistent))
  {
    RunKeepsInv(dbs, es, n);
  }
}
