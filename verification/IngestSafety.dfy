/**
  What every run of the ingest protocol keeps: no job is lost, a claim that was
  reset is fenced off for good, and a job is resumed a bounded number of times.
*/
module IngestSafety {
  import opened Wrappers
  import opened IngestProtocol

  // ---- Invariants of the rows ----

  /** A token is stored exactly while the row is processing, and then the row can be recovered. */
  ghost predicate RowOk(db: Db, v: VersionId)
    requires v in db.rows
  {
    var r := db.rows[v];
    && (r.token.Some? <==> r.status.Processing?)
    && (r.status.Processing? ==> r.payload.Some?)
    && (r.payload.Some? ==> r.payload.value.version == v)
    && (r.Terminal() ==> r.payload.None?)
    && (r.status.Done? <==> v in db.chunks)
    && r.retries <= db.maxResume
    && db.ClaimsOf(v) <= r.retries + db.RollbacksOf(v) + (if r.status.Pending? then 0 else 1)
  }

  ghost predicate RowsOk(db: Db) {
    && (forall v :: v in db.rows ==> RowOk(db, v))
    && db.chunks.Keys <= db.rows.Keys
    && db.claims.Keys <= db.rows.Keys
    && db.rollbacks.Keys <= db.rows.Keys
  }

  /** A stored token was issued, has no terminal write yet, and belongs to one row only. */
  ghost predicate TokensOk(db: Db) {
    && (forall v :: v in db.rows && db.rows[v].token.Some? ==>
          db.rows[v].token.value in db.issued && db.rows[v].token.value !in db.terminals)
    && (forall u, v :: u in db.rows && v in db.rows && db.rows[u].token.Some? && db.rows[u].token == db.rows[v].token ==> u == v)
    && (forall k :: k in db.terminals ==> k in db.issued && db.terminals[k] == 1)
    && (forall v :: v in db.chunks ==> db.chunks[v] in db.terminals)
  }

  ghost predicate DbOk(db: Db) {
    RowsOk(db) && TokensOk(db)
  }

  // ---- The SQL statement behind a step ----

  datatype Statement =
    | Nothing
    | Advance(elapsed: nat)
    | Insert(v: VersionId, t: TenantId)
    | ClaimOf(p: Payload, k: Token)
    | FinishOf(v: VersionId, k: Token, done: bool)
    | TouchOf(v: VersionId)
    | SweepOf(v: VersionId)
    | RollBackOf(v: VersionId)

  ghost predicate Enabled(db: Db, st: Statement) {
    match st
    case Nothing => true
    case Advance(_) => true
    case Insert(v, _) => v !in db.rows
    case ClaimOf(p, k) => p.version in db.rows && db.rows[p.version].status.Pending? && k !in db.issued
    case FinishOf(v, k, _) => v in db.rows && db.rows[v].token == Some(k)
    case TouchOf(v) => v in db.rows
    case SweepOf(v) => db.Sweepable(v)
    case RollBackOf(v) => v in db.rows
  }

  ghost function Exec(db: Db, st: Statement): Db
    requires Enabled(db, st)
  {
    match st
    case Nothing => db
    case Advance(elapsed) => db.(now := db.now + elapsed)
    case Insert(v, t) => db.Create(v, t)
    case ClaimOf(p, k) => db.ClaimRow(p, k)
    case FinishOf(v, k, done) => db.FinishRow(v, k, done)
    case TouchOf(v) => db.Put(v, db.rows[v])
    case SweepOf(v) => db.SweepRow(v)
    case RollBackOf(v) => db.RollBackRetry(v)
  }

  /** The statement a step executes; a guard that fails leaves it without one. */
  ghost function StatementOf(s: State, a: Action): Statement {
    match a
    case Tick(elapsed) => Advance(elapsed)
    case CreateVersion(v, t) => if v in s.db.rows then Nothing else Insert(v, t)
    case Claim(w, k, _) =>
      var pc := s.PcOf(w);
      if pc.Moved? && k !in s.db.issued && s.db.Claimable(pc.tenant, pc.payload.version) then ClaimOf(pc.payload, k)
      else Nothing
    case Finish(w, done, _) =>
      var pc := s.PcOf(w);
      if pc.Claimed? && s.db.Owns(pc.tenant, pc.payload.version, pc.token)
      then FinishOf(pc.payload.version, pc.token, done) else Nothing
    case Touch(t, v) => if s.db.Claimable(t, v) then TouchOf(v) else Nothing
    case Sweep(_, v) => if s.db.Sweepable(v) then SweepOf(v) else Nothing
    case PushFailed(q, rolledBack) =>
      if q in s.requeue && rolledBack && q.version in s.db.rows then RollBackOf(q.version) else Nothing
    case _ => Nothing
  }

  lemma StepExecutes(s: State, a: Action)
    ensures Enabled(s.db, StatementOf(s, a))
    ensures Step(s, a).db == Exec(s.db, StatementOf(s, a))
  {
  }

  lemma CreateKeepsDb(db: Db, v: VersionId, t: TenantId)
    requires DbOk(db) && v !in db.rows
    ensures DbOk(db.Create(v, t))
  {
  }

  lemma ClaimKeepsRows(db: Db, p: Payload, k: Token)
    requires RowsOk(db) && p.version in db.rows && db.rows[p.version].status.Pending?
    ensures RowsOk(db.ClaimRow(p, k))
  {
    var db' := db.ClaimRow(p, k);
    forall u | u in db'.rows ensures RowOk(db', u) {
      assert RowOk(db, u);
    }
  }

  lemma ClaimKeepsTokens(db: Db, p: Payload, k: Token)
    requires TokensOk(db) && p.version in db.rows && k !in db.issued
    ensures TokensOk(db.ClaimRow(p, k))
  {
    var db' := db.ClaimRow(p, k);
    assert db'.rows[p.version].token == Some(k);
    assert forall u :: u in db'.rows && u != p.version ==> db'.rows[u] == db.rows[u];
  }

  lemma FinishKeepsRows(db: Db, v: VersionId, k: Token, done: bool)
    requires RowsOk(db) && v in db.rows && db.rows[v].token == Some(k)
    ensures RowsOk(db.FinishRow(v, k, done))
  {
    var db' := db.FinishRow(v, k, done);
    forall u | u in db'.rows ensures RowOk(db', u) {
      assert RowOk(db, u);
    }
  }

  lemma FinishKeepsTokens(db: Db, v: VersionId, k: Token, done: bool)
    requires DbOk(db) && v in db.rows && db.rows[v].token == Some(k)
    ensures TokensOk(db.FinishRow(v, k, done))
  {
    var db' := db.FinishRow(v, k, done);
    assert db'.rows[v].token.None? && k !in db.terminals;
    assert forall u :: u in db'.rows && u != v ==> db'.rows[u] == db.rows[u];
  }

  lemma SweepKeepsRows(db: Db, v: VersionId)
    requires RowsOk(db) && db.Sweepable(v)
    ensures RowsOk(db.SweepRow(v))
  {
    var db' := db.SweepRow(v);
    forall u | u in db'.rows ensures RowOk(db', u) {
      assert RowOk(db, u);
    }
  }

  lemma SweepKeepsTokens(db: Db, v: VersionId)
    requires TokensOk(db) && db.Sweepable(v)
    ensures TokensOk(db.SweepRow(v))
  {
    var db' := db.SweepRow(v);
    assert db'.rows[v].token.None?;
    assert forall u :: u in db'.rows && u != v ==> db'.rows[u] == db.rows[u];
  }

  lemma TouchKeepsDb(db: Db, v: VersionId)
    requires DbOk(db) && v in db.rows
    ensures DbOk(db.Put(v, db.rows[v]))
  {
  }

  lemma RollBackKeepsRows(db: Db, v: VersionId)
    requires RowsOk(db) && v in db.rows
    ensures RowsOk(db.RollBackRetry(v))
  {
    var db' := db.RollBackRetry(v);
    forall u | u in db'.rows ensures RowOk(db', u) {
      assert RowOk(db, u);
    }
  }

  lemma RollBackKeepsTokens(db: Db, v: VersionId)
    requires TokensOk(db) && v in db.rows
    ensures TokensOk(db.RollBackRetry(v))
  {
    var db' := db.RollBackRetry(v);
    assert forall u :: u in db'.rows ==> db'.rows[u].token == db.rows[u].token;
  }

  lemma AdvanceKeepsDb(db: Db, now: int)
    requires DbOk(db)
    ensures DbOk(db.(now := now))
  {
    forall v | v in db.rows ensures RowOk(db.(now := now), v) {
      assert RowOk(db, v);
    }
  }

  lemma ExecKeepsDb(db: Db, st: Statement)
    requires DbOk(db) && Enabled(db, st)
    ensures DbOk(Exec(db, st))
  {
    match st
    case Nothing =>
    case Advance(elapsed) => AdvanceKeepsDb(db, db.now + elapsed);
    case Insert(v, t) => CreateKeepsDb(db, v, t);
    case ClaimOf(p, k) =>
      ClaimKeepsRows(db, p, k);
      ClaimKeepsTokens(db, p, k);
    case FinishOf(v, k, done) =>
      FinishKeepsRows(db, v, k, done);
      FinishKeepsTokens(db, v, k, done);
    case TouchOf(v) => TouchKeepsDb(db, v);
    case SweepOf(v) =>
      SweepKeepsRows(db, v);
      SweepKeepsTokens(db, v);
    case RollBackOf(v) =>
      RollBackKeepsRows(db, v);
      RollBackKeepsTokens(db, v);
  }

  lemma StepKeepsDb(s: State, a: Action)
    requires DbOk(s.db)
    ensures DbOk(Step(s, a).db)
  {
    StepExecutes(s, a);
    ExecKeepsDb(s.db, StatementOf(s, a));
  }

  /** A row keeps its tenant, once it is settled it stays settled, and tokens issued or used up stay so. */
  ghost predicate Persists(db: Db, db': Db) {
    && (forall v :: v in db.rows ==>
          && v in db'.rows
          && db'.rows[v].tenant == db.rows[v].tenant
          && (db.rows[v].Settled() ==> db'.rows[v].Settled()))
    && db.issued <= db'.issued && db.terminals <= db'.terminals
  }

  lemma ExecPersists(db: Db, st: Statement)
    requires Enabled(db, st)
    ensures Persists(db, Exec(db, st))
  {
  }

  lemma StepPersists(s: State, a: Action)
    ensures Persists(s.db, Step(s, a).db)
  {
    StepExecutes(s, a);
    ExecPersists(s.db, StatementOf(s, a));
  }

  lemma {:induction false} RunPersists(s: State, acts: seq<Action>)
    ensures Persists(s.db, Run(s, acts).db)
  {
    if acts != [] {
      RunPersists(s, acts[..|acts| - 1]);
      StepPersists(Run(s, acts[..|acts| - 1]), acts[|acts| - 1]);
    }
  }

  // ---- Which jobs a tenant's lists hold ----

  /** A copy of `x` is on the tenant's queue or on some worker's processing list for that tenant. */
  ghost predicate Holds(r: Redis, t: TenantId, x: Payload) {
    x in r.Queue(t) || exists w :: x in r.Proc(w, t)
  }

  lemma LPushHolds(r: Redis, t: TenantId, p: Payload, t': TenantId, x: Payload)
    ensures Holds(r.LPush(t, p), t', x) <==> Holds(r, t', x) || (t' == t && x == p)
  {
    var r' := r.LPush(t, p);
    assert forall w :: r'.Proc(w, t') == r.Proc(w, t');
    assert r'.Queue(t') == if t' == t then [p] + r.Queue(t) else r.Queue(t');
  }

  lemma LRemHolds(r: Redis, w: WorkerId, t: TenantId, p: Payload, t': TenantId, x: Payload)
    ensures Holds(r.LRem(w, t, p), t', x) ==> Holds(r, t', x)
    ensures Holds(r, t', x) && (t' != t || x != p) ==> Holds(r.LRem(w, t, p), t', x)
  {
    var r' := r.LRem(w, t, p);
    assert r'.Queue(t') == r.Queue(t');
    assert forall u :: r'.Proc(u, t') == if u == w && t' == t then RemoveFirst(r.Proc(w, t), p) else r.Proc(u, t');
  }

  lemma LMoveHolds(r: Redis, w: WorkerId, t: TenantId, t': TenantId, x: Payload)
    requires r.Queue(t) != []
    ensures Holds(r.LMove(w, t), t', x) <==> Holds(r, t', x)
  {
    var r', q := r.LMove(w, t), r.Queue(t);
    assert q == q[..|q| - 1] + [q[|q| - 1]];
    assert r'.Queue(t') == if t' == t then q[..|q| - 1] else r.Queue(t');
    assert forall u :: r'.Proc(u, t') == if u == w && t' == t then [q[|q| - 1]] + r.Proc(w, t) else r.Proc(u, t');
    assert t' == t ==> q[|q| - 1] in r'.Proc(w, t);
  }

  lemma TransferHolds(r: Redis, w: WorkerId, t: TenantId, p: Payload, t': TenantId, x: Payload)
    ensures Holds(r.Transfer(w, t, p), t', x) <==> Holds(r, t', x)
  {
    if p in r.Proc(w, t) {
      LRemHolds(r, w, t, p, t', x);
      LPushHolds(r.LRem(w, t, p), t, p, t', x);
    }
  }

  lemma SameListsHold(r: Redis, r': Redis, t: TenantId, x: Payload)
    requires r'.queues == r.queues && r'.procs == r.procs
    ensures Holds(r', t, x) <==> Holds(r, t, x)
  {
    assert forall w :: r'.Proc(w, t) == r.Proc(w, t);
  }

  function PushAll(r: Redis, t: TenantId, ps: seq<Payload>): Redis {
    if ps == [] then r else PushAll(r, t, ps[..|ps| - 1]).LPush(t, ps[|ps| - 1])
  }

  /** Jobs are taken in the order they were queued: whatever is pushed meanwhile, the oldest job is next. */
  lemma {:induction false} OldestFirst(r: Redis, w: WorkerId, t: TenantId, ps: seq<Payload>)
    requires r.Queue(t) != []
    ensures PushAll(r, t, ps).Queue(t) != []
    ensures PushAll(r, t, ps).LMove(w, t).Proc(w, t)[0] == r.LMove(w, t).Proc(w, t)[0] == r.Queue(t)[|r.Queue(t)| - 1]
  {
    if ps != [] {
      OldestFirst(r, w, t, ps[..|ps| - 1]);
    }
  }

  /** The steps that push to a queue, or take from one. */
  lemma QueueStepHolds(s: State, a: Action, t: TenantId, x: Payload)
    requires JobsOk(s) && (a.Produce? || a.LMove? || a.PushDone?)
    ensures Holds(Step(s, a).redis, t, x) ==> Holds(s.redis, t, x) || x.version in s.db.rows
    ensures Holds(s.redis, t, x) ==> Holds(Step(s, a).redis, t, x)
  {
    match a
    case Produce(t', p) => if p.version in s.db.rows { LPushHolds(s.redis, t', p, t, x); }
    case LMove(w, t', _) => if s.redis.Queue(t') != [] { LMoveHolds(s.redis, w, t', t, x); }
    case PushDone(q, _) => if q in s.requeue { LPushHolds(s.redis, q.tenant, q.payload, t, x); }
  }

  /** The steps that move a job back. */
  lemma BackStepHolds(s: State, a: Action, t: TenantId, x: Payload)
    requires a.Transfer? || a.Reap?
    ensures Holds(Step(s, a).redis, t, x) <==> Holds(s.redis, t, x)
  {
    match a
    case Transfer(w, _) => if s.PcOf(w).Infra? { TransferHolds(s.redis, w, s.PcOf(w).tenant, s.PcOf(w).payload, t, x); }
    case Reap(w, t', p) => TransferHolds(s.redis, w, t', p, t, x);
  }

  lemma RestLeavesLists(s: State, a: Action)
    requires !a.Produce? && !a.LMove? && !a.PushDone? && !a.Transfer? && !a.Reap? && !a.LRem?
    ensures Step(s, a).redis.queues == s.redis.queues && Step(s, a).redis.procs == s.redis.procs
  {
  }

  /** The only way a copy leaves a tenant's lists is the acknowledgement of that very job. */
  lemma StepHolds(s: State, a: Action, t: TenantId, x: Payload)
    requires JobsOk(s)
    ensures Holds(Step(s, a).redis, t, x) ==> Holds(s.redis, t, x) || x.version in s.db.rows
    ensures Holds(s.redis, t, x) ==>
      Holds(Step(s, a).redis, t, x) || (a.LRem? && s.PcOf(a.w) == Acked(t, x))
  {
    if a.Produce? || a.LMove? || a.PushDone? {
      QueueStepHolds(s, a, t, x);
    } else if a.Transfer? || a.Reap? {
      BackStepHolds(s, a, t, x);
    } else if a.LRem? {
      if s.PcOf(a.w).Acked? { LRemHolds(s.redis, a.w, s.PcOf(a.w).tenant, s.PcOf(a.w).payload, t, x); }
    } else {
      RestLeavesLists(s, a);
      SameListsHold(s.redis, Step(s, a).redis, t, x);
    }
  }

  // ---- Invariants of the jobs ----

  ghost predicate PushOk(db: Db, q: Push) {
    q.version in db.rows && db.rows[q.version].tenant == q.tenant && q.payload.version == q.version
  }

  /**
    A worker that claimed its job, or is about to drop its entry, has a settled
    row behind it. A claimed token has written nothing yet and marks no other row.
  */
  ghost predicate PcOk(db: Db, pc: Pc) {
    !pc.Idle? ==>
      && pc.payload.version in db.rows
      && (pc.Acked? || pc.Claimed? ==>
            (db.rows[pc.payload.version].tenant == pc.tenant ==> db.rows[pc.payload.version].Settled()))
      && (pc.Claimed? ==> db.rows[pc.payload.version].tenant == pc.tenant && TokenHeld(db, pc.token, pc.payload.version))
  }

  ghost predicate TokenHeld(db: Db, k: Token, v: VersionId) {
    && k in db.issued && k !in db.terminals
    && forall u :: u in db.rows && db.rows[u].token == Some(k) ==> u == v
  }

  ghost predicate OneHolder(pcs: map<WorkerId, Pc>) {
    forall w, w' :: w in pcs && w' in pcs && pcs[w].Claimed? && pcs[w'].Claimed? && pcs[w].token == pcs[w'].token ==> w == w'
  }

  /** Every job anywhere names an existing version. */
  ghost predicate JobsOk(s: State) {
    && (forall t, x :: Holds(s.redis, t, x) ==> x.version in s.db.rows)
    && (forall w :: w in s.pcs ==> PcOk(s.db, s.pcs[w]))
    && OneHolder(s.pcs)
    && (forall q :: q in s.requeue ==> PushOk(s.db, q))
  }

  /** A token keeps its meaning until the terminal write of its own holder. */
  lemma ExecKeepsTokenHeld(db: Db, st: Statement, k: Token, v: VersionId)
    requires TokenHeld(db, k, v) && Enabled(db, st) && (st.FinishOf? ==> st.k != k)
    ensures TokenHeld(Exec(db, st), k, v)
  {
  }

  lemma ExecKeepsPc(db: Db, st: Statement, pc: Pc)
    requires PcOk(db, pc) && Enabled(db, st)
    requires st.FinishOf? && pc.Claimed? ==> st.k != pc.token
    ensures PcOk(Exec(db, st), pc)
  {
    ExecPersists(db, st);
    if pc.Claimed? {
      ExecKeepsTokenHeld(db, st, pc.token, pc.payload.version);
    }
  }

  /** What a worker's own action leaves it with: the old counter, or one of five successors. */
  ghost predicate PcSuccessor(s: State, w: WorkerId, a: Action, pc: Pc) {
    var prev := s.PcOf(w);
    || pc.Idle?
    || (pc == prev && !a.Finish?)
    || (pc.Moved? && s.redis.Queue(pc.tenant) != [] && pc.payload in s.redis.Queue(pc.tenant))
    || (prev.Moved? && pc == Acked(prev.tenant, prev.payload) && !s.db.Claimable(prev.tenant, prev.payload.version))
    || (prev.Moved? && a.Claim? && pc == Claimed(prev.tenant, prev.payload, a.k)
        && StatementOf(s, a) == ClaimOf(prev.payload, a.k) && s.db.Claimable(prev.tenant, prev.payload.version))
    || (prev.Claimed? && pc == Acked(prev.tenant, prev.payload))
    || (!prev.Idle? && pc == Infra(prev.tenant, prev.payload))
  }

  lemma StepSuccessor(s: State, a: Action, w: WorkerId)
    requires a.Actor() == Some(w)
    ensures PcSuccessor(s, w, a, Step(s, a).PcOf(w)) || (Step(s, a).PcOf(w) == s.PcOf(w) && !s.PcOf(w).Claimed?)
  {
  }

  lemma ClaimedIsOk(db: Db, t: TenantId, p: Payload, k: Token)
    requires DbOk(db) && p.version in db.rows && k !in db.issued && db.rows[p.version].tenant == t
    ensures PcOk(db.ClaimRow(p, k), Claimed(t, p, k))
  {
    var db' := db.ClaimRow(p, k);
    assert forall u :: u in db'.rows && u != p.version ==> db'.rows[u] == db.rows[u];
  }

  lemma SuccessorIsOk(s: State, a: Action, w: WorkerId, pc: Pc)
    requires DbOk(s.db) && PcOk(s.db, s.PcOf(w)) && (forall t, x :: Holds(s.redis, t, x) ==> x.version in s.db.rows)
    requires a.Actor() == Some(w) && PcSuccessor(s, w, a, pc)
    ensures PcOk(Exec(s.db, StatementOf(s, a)), pc)
  {
    var st := StatementOf(s, a);
    StepExecutes(s, a);
    ExecPersists(s.db, st);
    if pc.Claimed? && !(pc == s.PcOf(w) && !a.Finish?) {
      ClaimedIsOk(s.db, pc.tenant, pc.payload, pc.token);
    } else if pc == s.PcOf(w) && !a.Finish? {
      ExecKeepsPc(s.db, st, pc);
    } else if pc.Moved? {
      assert Holds(s.redis, pc.tenant, pc.payload);
    } else if pc.Acked? && s.PcOf(w).Moved? {
      assert RowOk(s.db, pc.payload.version);
    }
  }

  lemma StepKeepsPcs(s: State, a: Action, w: WorkerId)
    requires DbOk(s.db) && JobsOk(s)
    ensures PcOk(Step(s, a).db, Step(s, a).PcOf(w))
  {
    var s' := Step(s, a);
    StepExecutes(s, a);
    assert PcOk(s.db, s.PcOf(w));
    if a.Actor() == Some(w) {
      StepSuccessor(s, a, w);
      if PcSuccessor(s, w, a, s'.PcOf(w)) {
        SuccessorIsOk(s, a, w, s'.PcOf(w));
      } else {
        ExecKeepsPc(s.db, StatementOf(s, a), s.PcOf(w));
      }
    } else {
      OthersKeepPc(s, a, w);
      ExecKeepsPc(s.db, StatementOf(s, a), s.PcOf(w));
    }
  }

  lemma OthersKeepPc(s: State, a: Action, w: WorkerId)
    requires OneHolder(s.pcs) && a.Actor() != Some(w)
    ensures Step(s, a).PcOf(w) == s.PcOf(w)
    ensures StatementOf(s, a).FinishOf? && s.PcOf(w).Claimed? ==> StatementOf(s, a).k != s.PcOf(w).token
  {
  }

  /** A worker that holds a claim held it before, or has just made it under a token never issued. */
  lemma ClaimedBefore(s: State, a: Action, w: WorkerId)
    requires w in Step(s, a).pcs && Step(s, a).pcs[w].Claimed?
    ensures var pc := Step(s, a).pcs[w];
            (w in s.pcs && s.pcs[w] == pc) || (a == Claim(w, pc.token, false) && pc.token !in s.db.issued)
  {
  }

  lemma StepKeepsOneHolder(s: State, a: Action)
    requires JobsOk(s)
    ensures OneHolder(Step(s, a).pcs)
  {
    var pcs := Step(s, a).pcs;
    forall w | w in s.pcs && s.pcs[w].Claimed? ensures s.pcs[w].token in s.db.issued {
      assert PcOk(s.db, s.pcs[w]);
    }
    forall w | w in pcs && pcs[w].Claimed?
      ensures (w in s.pcs && s.pcs[w] == pcs[w]) || (a == Claim(w, pcs[w].token, false) && pcs[w].token !in s.db.issued)
    {
      ClaimedBefore(s, a, w);
    }
  }

  lemma StepAddsPushes(s: State, a: Action, q: Push)
    requires q in Step(s, a).requeue && q !in s.requeue
    ensures a.Sweep? && s.db.Sweepable(a.v) && s.db.CanRequeue(a.v)
    ensures q == Push(a.sched, s.db.rows[a.v].tenant, a.v, s.db.rows[a.v].payload.value)
  {
  }

  lemma StepKeepsPushes(s: State, a: Action)
    requires DbOk(s.db) && JobsOk(s)
    ensures forall q :: q in Step(s, a).requeue ==> PushOk(Step(s, a).db, q)
  {
    StepPersists(s, a);
    forall q | q in Step(s, a).requeue ensures PushOk(Step(s, a).db, q) {
      if q !in s.requeue {
        StepAddsPushes(s, a, q);
        assert RowOk(s.db, a.v);
      }
      assert PushOk(s.db, q);
    }
  }

  lemma StepKeepsJobs(s: State, a: Action)
    requires DbOk(s.db) && JobsOk(s)
    ensures JobsOk(Step(s, a))
  {
    StepPersists(s, a);
    forall w | w in Step(s, a).pcs ensures PcOk(Step(s, a).db, Step(s, a).pcs[w]) {
      StepKeepsPcs(s, a, w);
      assert Step(s, a).PcOf(w) == Step(s, a).pcs[w];
    }
    StepKeepsOneHolder(s, a);
    StepKeepsPushes(s, a);
    forall t, x | Holds(Step(s, a).redis, t, x) ensures x.version in Step(s, a).db.rows {
      StepHolds(s, a, t, x);
    }
  }

  // ---- No job is lost ----

  /** The version is finished, or its row holds a job, or a copy waits on its own tenant's lists. */
  ghost predicate Recoverable(s: State, v: VersionId) {
    && v in s.db.rows
    && (s.db.rows[v].Settled() || exists x :: Holds(s.redis, s.db.rows[v].tenant, x) && x.version == v)
  }

  /** A producer put the job on the queue of the tenant that owns the version. */
  predicate Enqueued(s: State, job: Job) {
    && job in s.produced
    && job.payload.version in s.db.rows && s.db.rows[job.payload.version].tenant == job.tenant
  }

  ghost predicate NothingLost(s: State) {
    && (forall job :: job in s.produced ==> job.payload.version in s.db.rows)
    && (forall job :: Enqueued(s, job) ==> Recoverable(s, job.payload.version))
  }

  ghost predicate Inv(s: State) {
    DbOk(s.db) && JobsOk(s) && NothingLost(s)
  }

  lemma StepLosesNothing(s: State, a: Action)
    requires Inv(s)
    ensures NothingLost(Step(s, a))
  {
    var s' := Step(s, a);
    StepPersists(s, a);
    StepProduces(s, a);
    forall job | Enqueued(s', job) ensures Recoverable(s', job.payload.version) {
      if job in s.produced {
        StaysRecoverable(s, a, job);
      } else {
        LPushHolds(s.redis, a.t, a.p, a.t, a.p);
      }
    }
  }

  lemma StepProduces(s: State, a: Action)
    ensures Step(s, a).produced == if a.Produce? && a.p.version in s.db.rows then s.produced + {Job(a.t, a.p)} else s.produced
  {
  }

  lemma StaysRecoverable(s: State, a: Action, job: Job)
    requires Inv(s) && job in s.produced && Enqueued(Step(s, a), job)
    ensures Recoverable(Step(s, a), job.payload.version)
  {
    var v := job.payload.version;
    StepPersists(s, a);
    assert Enqueued(s, job) && Recoverable(s, v);
    var t := s.db.rows[v].tenant;
    if !s.db.rows[v].Settled() {
      var x :| Holds(s.redis, t, x) && x.version == v;
      StepHolds(s, a, t, x);
    }
  }

  lemma {:induction false} RunKeepsInv(s: State, acts: seq<Action>)
    requires Inv(s)
    ensures Inv(Run(s, acts))
  {
    if acts != [] {
      var mid, a := Run(s, acts[..|acts| - 1]), acts[|acts| - 1];
      RunKeepsInv(s, acts[..|acts| - 1]);
      StepKeepsDb(mid, a);
      StepKeepsJobs(mid, a);
      StepLosesNothing(mid, a);
    }
  }

  lemma InitHasInv(s: State)
    requires Init(s)
    ensures Inv(s)
  {
    assert forall t, x :: !Holds(s.redis, t, x);
  }

  // ---- Fencing ----

  /** The token marks no row any more and never produced a terminal write. */
  ghost predicate Retired(db: Db, k: Token) {
    && k in db.issued && k !in db.terminals
    && forall v :: v in db.rows ==> db.rows[v].token != Some(k)
  }

  lemma ExecKeepsRetired(db: Db, st: Statement, k: Token)
    requires Retired(db, k) && Enabled(db, st)
    ensures Retired(Exec(db, st), k)
  {
  }

  lemma {:induction false} RunKeepsRetired(s: State, acts: seq<Action>, k: Token)
    requires Retired(s.db, k)
    ensures Retired(Run(s, acts).db, k)
  {
    if acts != [] {
      RunKeepsRetired(s, acts[..|acts| - 1], k);
      StepExecutes(Run(s, acts[..|acts| - 1]), acts[|acts| - 1]);
      ExecKeepsRetired(Run(s, acts[..|acts| - 1]).db, StatementOf(Run(s, acts[..|acts| - 1]), acts[|acts| - 1]), k);
    }
  }

  /**
    A worker whose claim was reset is fenced off in every continuation: its token
    never comes back, it leaves no chunks behind, and its own terminal write, if
    it still attempts one, changes no row.
  */
  lemma ResetClaimIsFenced(s: State, before: seq<Action>, after: seq<Action>, w: WorkerId, done: bool, lost: bool)
    requires Init(s)
    requires var pc := Run(s, before).PcOf(w);
             pc.Claimed? && !Run(s, before).db.Owns(pc.tenant, pc.payload.version, pc.token)
    ensures var k, s2 := Run(s, before).PcOf(w).token, Run(s, before + after);
            && Retired(s2.db, k)
            && (forall v :: v in s2.db.chunks ==> s2.db.chunks[v] != k)
            && (s2.PcOf(w) == Run(s, before).PcOf(w) ==> Step(s2, Finish(w, done, lost)).db == s2.db)
  {
    var s1 := Run(s, before);
    var pc := s1.PcOf(w);
    InitHasInv(s);
    RunKeepsInv(s, before);
    assert PcOk(s1.db, pc);
    RunConcat(s, before, after);
    RunKeepsInv(s1, after);
    RunKeepsRetired(s1, after, pc.token);
  }

  /** In every reachable state: token exactly while processing, and at most one terminal write per token. */
  lemma TokensFence(s: State, acts: seq<Action>, v: VersionId, k: Token)
    requires Init(s)
    ensures var db := Run(s, acts).db;
            && db.terminals[k] <= 1
            && (v in db.rows ==> (db.rows[v].token.Some? <==> db.rows[v].status.Processing?))
            && (v in db.rows && db.rows[v].token == Some(k) ==> db.terminals[k] == 0)
  {
    InitHasInv(s);
    RunKeepsInv(s, acts);
    var db := Run(s, acts).db;
    if v in db.rows { assert RowOk(db, v); }
  }

  /** The outcome of `v`: its status and, if it is done, whose chunks it has. */
  ghost predicate SameOutcome(db: Db, db': Db, v: VersionId)
    requires v in db.rows
  {
    && v in db'.rows && db'.rows[v].status == db.rows[v].status
    && (v in db'.chunks <==> v in db.chunks)
    && (v in db.chunks ==> db'.chunks[v] == db.chunks[v])
  }

  lemma ExecAbsorbs(db: Db, st: Statement, v: VersionId)
    requires v in db.rows && db.rows[v].Terminal() && db.rows[v].token.None? && Enabled(db, st)
    ensures SameOutcome(db, Exec(db, st), v)
  {
  }

  /** 'done' and 'error' are final, and so is the set of chunks a version was finished with. */
  lemma {:induction false} TerminalIsAbsorbing(s: State, acts: seq<Action>, v: VersionId)
    requires Inv(s) && v in s.db.rows && s.db.rows[v].Terminal()
    ensures SameOutcome(s.db, Run(s, acts).db, v)
  {
    if acts != [] {
      TerminalIsAbsorbing(s, acts[..|acts| - 1], v);
      RunKeepsInv(s, acts[..|acts| - 1]);
      var mid, a := Run(s, acts[..|acts| - 1]), acts[|acts| - 1];
      assert RowOk(mid.db, v);
      StepExecutes(mid, a);
      ExecAbsorbs(mid.db, StatementOf(mid, a), v);
    }
  }

  // ---- Bounded resumption ----

  lemma StepKeepsBudget(s: State, a: Action)
    ensures Step(s, a).db.maxResume == s.db.maxResume
  {
    StepExecutes(s, a);
  }

  lemma {:induction false} RunKeepsBudget(s: State, acts: seq<Action>)
    ensures Run(s, acts).db.maxResume == s.db.maxResume
  {
    if acts != [] {
      RunKeepsBudget(s, acts[..|acts| - 1]);
      StepKeepsBudget(Run(s, acts[..|acts| - 1]), acts[|acts| - 1]);
    }
  }

  /** Retries stay within budget; a version is claimed at most once per retry and rolled-back push, plus once. */
  lemma ClaimsAreBounded(s: State, acts: seq<Action>, v: VersionId)
    requires Init(s) && v in Run(s, acts).db.rows
    ensures Run(s, acts).db.rows[v].retries <= s.db.maxResume
    ensures Run(s, acts).db.ClaimsOf(v) <= 1 + s.db.maxResume + Run(s, acts).db.RollbacksOf(v)
  {
    InitHasInv(s);
    RunKeepsInv(s, acts);
    RunKeepsBudget(s, acts);
    assert RowOk(Run(s, acts).db, v);
  }

  lemma {:induction false} NoFailedPushNoRollback(s: State, acts: seq<Action>)
    requires s.db.rollbacks == map[] && forall i :: 0 <= i < |acts| ==> !acts[i].PushFailed?
    ensures Run(s, acts).db.rollbacks == map[]
  {
    if acts != [] {
      NoFailedPushNoRollback(s, acts[..|acts| - 1]);
    }
  }

  /** Without failed pushes a poison job is claimed at most 1 + maxResume times. */
  lemma PoisonIsBounded(s: State, acts: seq<Action>, v: VersionId)
    requires Init(s) && v in Run(s, acts).db.rows
    requires forall i :: 0 <= i < |acts| ==> !acts[i].PushFailed?
    ensures Run(s, acts).db.ClaimsOf(v) <= 1 + s.db.maxResume
  {
    ClaimsAreBounded(s, acts, v);
    NoFailedPushNoRollback(s, acts);
  }

  // ---- The bound is attained ----

  const POISON := Payload(0, 0, "")
  const LOST_PUSH := Push(0, 0, 0, POISON)

  /** What was counted of one job so far. */
  datatype Tally = Tally(budget: nat, claims: nat, retries: nat, rollbacks: nat)

  ghost predicate Tallied(s: State, y: Tally) {
    && s.db.maxResume == y.budget
    && 0 in s.db.rows && s.db.rows[0].tenant == 0 && s.db.rows[0].retries == y.retries
    && s.db.ClaimsOf(0) == y.claims && s.db.RollbacksOf(0) == y.rollbacks && (forall k :: k in s.db.issued ==> k < y.claims)
  }

  /** The job is queued once and nothing else is going on. */
  ghost predicate AtRest(s: State) {
    && s.redis.Queue(0) == [POISON] && s.redis.Proc(0, 0) == []
    && s.PcOf(0).Idle? && s.requeue == multiset{}
  }

  ghost predicate BeforeTrip(s: State, y: Tally) {
    Tallied(s, y) && s.db.rows[0].status.Pending? && AtRest(s)
  }

  /** The job was claimed once more and handed back; its row is still processing. */
  ghost predicate MidTrip(s: State, y: Tally) {
    && Tallied(s, y) && AtRest(s)
    && s.db.rows[0].status.Processing? && s.db.rows[0].payload == Some(POISON) && s.db.rows[0].updatedAt == s.db.now
  }

  lemma ClaimAgain(s: State, y: Tally)
    requires BeforeTrip(s, y)
    ensures MidTrip(Step(Step(Step(Step(s, LMove(0, 0, false)), Claim(0, y.claims, false)), InfraError(0)), Transfer(0, false)),
                    y.(claims := y.claims + 1))
  {
    var s1 := Step(s, LMove(0, 0, false));
    assert s1.PcOf(0) == Moved(0, POISON) && s1.redis.Queue(0) == [] && s1.redis.Proc(0, 0) == [POISON];
    assert s1.db == s.db && s1.requeue == multiset{};
    var s2 := Step(s1, Claim(0, y.claims, false));
    assert s2 == s1.(db := s.db.ClaimRow(POISON, y.claims)).At(0, Claimed(0, POISON, y.claims));
    HandBack(s2, y.(claims := y.claims + 1));
  }

  lemma HandBack(s: State, y: Tally)
    requires Tallied(s, y) && s.db.rows[0].status.Processing?
    requires s.db.rows[0].payload == Some(POISON) && s.db.rows[0].updatedAt == s.db.now
    requires s.redis.Queue(0) == [] && s.redis.Proc(0, 0) == [POISON]
    requires s.PcOf(0).Claimed? && s.PcOf(0).tenant == 0 && s.PcOf(0).payload == POISON && s.requeue == multiset{}
    ensures MidTrip(Step(Step(s, InfraError(0)), Transfer(0, false)), y)
  {
    var s3 := Step(s, InfraError(0));
    assert s3 == s.At(0, Infra(0, POISON));
    var r := s.redis.LRem(0, 0, POISON);
    assert r.Proc(0, 0) == [] && r.Queue(0) == [];
    assert s3.redis.Transfer(0, 0, POISON) == r.LPush(0, POISON);
    assert r.LPush(0, POISON).Queue(0) == [POISON];
  }

  /** What a sweep and its lost push count: a retry, or a rollback of it. */
  function AfterPush(y: Tally, rolledBack: bool): Tally {
    if rolledBack then y.(rollbacks := y.rollbacks + 1) else y.(retries := y.retries + 1)
  }

  lemma SweepAgain(s: State, y: Tally, rolledBack: bool)
    requires MidTrip(s, y) && y.retries < y.budget
    ensures BeforeTrip(Step(Step(Step(s, Tick(s.db.stuckAfter + 1)), Sweep(0, 0)), PushFailed(LOST_PUSH, rolledBack)),
                       AfterPush(y, rolledBack))
  {
    var s1 := Step(s, Tick(s.db.stuckAfter + 1));
    SweptPoison(s1, y);
    LostPush(Step(s1, Sweep(0, 0)), y.(retries := y.retries + 1), rolledBack);
  }

  /** The poison job is back to pending, with a push to do. */
  ghost predicate Swept(s: State, y: Tally) {
    && Tallied(s, y) && s.db.rows[0].status.Pending?
    && s.redis.Queue(0) == [POISON] && s.redis.Proc(0, 0) == []
    && s.PcOf(0).Idle? && s.requeue == multiset{LOST_PUSH}
  }

  lemma SweptPoison(s: State, y: Tally)
    requires Tallied(s, y) && AtRest(s) && y.retries < y.budget && s.db.rows[0].status.Processing?
    requires s.db.rows[0].payload == Some(POISON) && s.db.rows[0].updatedAt + s.db.stuckAfter < s.db.now
    ensures Swept(Step(s, Sweep(0, 0)), y.(retries := y.retries + 1))
  {
    assert s.db.Sweepable(0) && s.db.CanRequeue(0);
    assert Step(s, Sweep(0, 0)) == s.(db := s.db.SweepRow(0), requeue := multiset{LOST_PUSH});
  }

  lemma LostPush(s: State, y: Tally, rolledBack: bool)
    requires Swept(s, y) && y.retries > 0
    ensures BeforeTrip(Step(s, PushFailed(LOST_PUSH, rolledBack)), AfterPush(y.(retries := y.retries - 1), rolledBack))
  {
    var dropped := s.DropPush(LOST_PUSH);
    assert Step(s, PushFailed(LOST_PUSH, rolledBack)) == if rolledBack then dropped.(db := s.db.RollBackRetry(0)) else dropped;
  }

  /** The job is claimed and handed back. */
  lemma HalfTrip(s: State, y: Tally) returns (acts: seq<Action>)
    requires BeforeTrip(s, y)
    ensures MidTrip(Run(s, acts), y.(claims := y.claims + 1))
  {
    ClaimAgain(s, y);
    var one := [LMove(0, 0, false)];
    RunOne(s, LMove(0, 0, false));
    var two := one + [Claim(0, y.claims, false)];
    RunThen(s, one, Claim(0, y.claims, false));
    var three := two + [InfraError(0)];
    RunThen(s, two, InfraError(0));
    acts := three + [Transfer(0, false)];
    RunThen(s, three, Transfer(0, false));
  }

  /** One trip of a poison job: claimed, handed back, swept, and the push of the sweep fails. */
  lemma OneTrip(s: State, y: Tally, rolledBack: bool) returns (acts: seq<Action>)
    requires BeforeTrip(s, y) && y.retries < y.budget
    ensures BeforeTrip(Run(s, acts), AfterPush(y.(claims := y.claims + 1), rolledBack))
  {
    var four := HalfTrip(s, y);
    var mid := Run(s, four);
    SweepAgain(mid, y.(claims := y.claims + 1), rolledBack);
    var five := four + [Tick(mid.db.stuckAfter + 1)];
    RunThen(s, four, Tick(mid.db.stuckAfter + 1));
    var six := five + [Sweep(0, 0)];
    RunThen(s, five, Sweep(0, 0));
    acts := six + [PushFailed(LOST_PUSH, rolledBack)];
    RunThen(s, six, PushFailed(LOST_PUSH, rolledBack));
  }

  /** `r` trips whose retry is given back, then `t` trips that use one up. */
  lemma {:induction false} Trips(s: State, y: Tally, r: nat, t: nat) returns (acts: seq<Action>)
    requires BeforeTrip(s, y) && y.retries == 0 && t <= y.budget && (r > 0 ==> y.budget > 0)
    ensures BeforeTrip(Run(s, acts), Tally(y.budget, y.claims + r + t, t, y.rollbacks + r))
    decreases r + t
  {
    if r + t == 0 {
      acts := [];
    } else {
      var back := t == 0;
      var init := Trips(s, y, if back then r - 1 else r, if back then 0 else t - 1);
      var before := Tally(y.budget, y.claims + r + t - 1, if back then 0 else t - 1, y.rollbacks + if back then r - 1 else r);
      var next := OneTrip(Run(s, init), before, back);
      RunConcat(s, init, next);
      acts := init + next;
    }
  }

  /** The job is created and queued. */
  lemma Queued(s: State) returns (acts: seq<Action>)
    requires Init(s)
    ensures BeforeTrip(Run(s, acts), Tally(s.db.maxResume, 0, 0, 0))
  {
    acts := [CreateVersion(0, 0), Produce(0, POISON)];
    assert acts[..1] == [CreateVersion(0, 0)] && acts[..1][..0] == [];
    var s1 := Step(s, CreateVersion(0, 0));
    assert Run(s, acts[..1]) == s1;
    assert Run(s, acts) == Step(s1, Produce(0, POISON));
  }

  /** Without a budget nothing is requeued, so no retry is ever given back. */
  lemma {:induction false} NoBudgetNoRollback(s: State, acts: seq<Action>)
    requires s.db.maxResume == 0 && s.requeue == multiset{} && s.db.rollbacks == map[]
    ensures var s' := Run(s, acts); s'.db.maxResume == 0 && s'.requeue == multiset{} && s'.db.rollbacks == map[]
  {
    if acts != [] {
      var mid, a := Run(s, acts[..|acts| - 1]), acts[|acts| - 1];
      NoBudgetNoRollback(s, acts[..|acts| - 1]);
      if q :| q in Step(mid, a).requeue {
        StepAddsPushes(mid, a, q);
      }
      StepExecutes(mid, a);
      assert !StatementOf(mid, a).RollBackOf?;
    }
  }

  /**
    The bound on claims is attained with any number of rollbacks. Without a
    budget nothing is ever requeued, so then there are none.
  */
  lemma ClaimsAttainTheirBound(s: State, r: nat) returns (acts: seq<Action>)
    requires Init(s) && (r > 0 ==> s.db.maxResume > 0)
    ensures 0 in Run(s, acts).db.rows && Run(s, acts).db.RollbacksOf(0) == r
    ensures Run(s, acts).db.ClaimsOf(0) == 1 + s.db.maxResume + r
  {
    var start := Queued(s);
    var trips := Trips(Run(s, start), Tally(s.db.maxResume, 0, 0, 0), r, s.db.maxResume);
    RunConcat(s, start, trips);
    var last := HalfTrip(Run(s, start + trips), Tally(s.db.maxResume, r + s.db.maxResume, s.db.maxResume, r));
    RunConcat(s, start + trips, last);
    acts := start + trips + last;
  }

  /** With a budget and failing pushes, one job can be claimed any number of times. */
  lemma FailedPushesUnboundClaims(s: State, n: nat) returns (acts: seq<Action>)
    requires Init(s) && s.db.maxResume >= 1
    ensures 0 in Run(s, acts).db.rows && Run(s, acts).db.ClaimsOf(0) == n == Run(s, acts).db.RollbacksOf(0)
  {
    var start := Queued(s);
    var rest := Trips(Run(s, start), Tally(s.db.maxResume, 0, 0, 0), n, 0);
    RunConcat(s, start, rest);
    acts := start + rest;
  }
}
