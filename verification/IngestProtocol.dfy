/**
  The ingest claim and recovery protocol as a state machine.

  Shared state: the `document_versions` rows in Postgres, the Redis lists (one
  queue per tenant, one processing list per worker and tenant), the program
  counter of every worker, and the requeue work that schedulers have committed
  but not pushed yet. One `Action` is one atomic effect on that state. Actions
  that are not enabled leave the state unchanged, so every sequence of actions
  is a run and "for every run" is "for every sequence".
*/
module IngestProtocol {
  import opened Wrappers

  type TenantId = nat
  type VersionId = nat
  type WorkerId = nat
  type SchedulerId = nat
  type Token = nat

  /** A queued job. `company` is what the producer wrote; the queue key decides the tenant. */
  datatype Payload = Payload(company: TenantId, version: VersionId, body: string)

  // ---- Postgres: the version rows ----

  datatype Status = Pending | Processing | Done | Error

  datatype Row = Row(
    tenant: TenantId, status: Status, token: Option<Token>,
    payload: Option<Payload>, retries: nat, updatedAt: int)
  {
    predicate Terminal() {
      status.Done? || status.Error?
    }

    /** The row itself guarantees recovery: it is finished, or it holds the job. */
    predicate Settled() {
      Terminal() || payload.Some?
    }
  }

  /**
    `issued` and everything after it is history: it records what happened, and
    the only thing a statement reads from it is that a token was never issued.
  */
  datatype Db = Db(
    maxResume: nat,
    stuckAfter: nat,
    now: int,
    rows: map<VersionId, Row>,
    issued: set<Token>,
    terminals: multiset<Token>,
    chunks: map<VersionId, Token>,
    claims: map<VersionId, nat>,
    rollbacks: map<VersionId, nat>)
  {
    function ClaimsOf(v: VersionId): nat {
      if v in claims then claims[v] else 0
    }

    function RollbacksOf(v: VersionId): nat {
      if v in rollbacks then rollbacks[v] else 0
    }

    /** Every UPDATE refreshes `updated_at`. */
    function Put(v: VersionId, r: Row): Db {
      this.(rows := rows[v := r.(updatedAt := now)])
    }

    /** The claim gate: the row exists under the queue's tenant and is pending. */
    predicate Claimable(t: TenantId, v: VersionId) {
      v in rows && rows[v].tenant == t && rows[v].status.Pending?
    }

    /** The ownership gate of every terminal write. */
    predicate Owns(t: TenantId, v: VersionId, k: Token) {
      v in rows && rows[v].tenant == t && rows[v].token == Some(k)
    }

    /** Both sweeps select a row by status and age alone. */
    predicate Sweepable(v: VersionId) {
      v in rows && !rows[v].Terminal() && rows[v].updatedAt < now - stuckAfter
    }

    predicate CanRequeue(v: VersionId)
      requires v in rows
    {
      rows[v].payload.Some? && rows[v].retries < maxResume
    }

    function Create(v: VersionId, t: TenantId): Db {
      Put(v, Row(t, Pending, None, None, 0, now))
    }

    function ClaimRow(p: Payload, k: Token): Db
      requires p.version in rows
    {
      Put(p.version, rows[p.version].(status := Processing, payload := Some(p), token := Some(k)))
        .(issued := issued + {k}, claims := claims[p.version := ClaimsOf(p.version) + 1])
    }

    /** The terminal write; 'done' commits the version's chunks in the same transaction. */
    function FinishRow(v: VersionId, k: Token, done: bool): Db
      requires v in rows
    {
      Put(v, rows[v].(status := if done then Done else Error, token := None, payload := None))
        .(terminals := terminals + multiset{k}, chunks := if done then chunks[v := k] else chunks)
    }

    /** Both sweeps treat a stuck row alike: back to pending within budget, otherwise failed. */
    function Swept(v: VersionId): Row
      requires v in rows
    {
      var r := rows[v];
      if CanRequeue(v) then r.(status := Pending, token := None, retries := r.retries + 1)
      else r.(status := Error, token := None, payload := None)
    }

    function SweepRow(v: VersionId): Db
      requires v in rows
    {
      Put(v, Swept(v))
    }

    function RollBackRetry(v: VersionId): Db
      requires v in rows
    {
      Put(v, rows[v].(retries := if rows[v].retries == 0 then 0 else rows[v].retries - 1))
        .(rollbacks := rollbacks[v := RollbacksOf(v) + 1])
    }
  }

  // ---- Redis: queues and processing lists ----

  datatype ProcKey = ProcKey(worker: WorkerId, tenant: TenantId)

  /** LREM with count 1: drops the occurrence nearest the head. */
  function RemoveFirst(xs: seq<Payload>, x: Payload): (ys: seq<Payload>)
    ensures forall y :: y in ys ==> y in xs
    ensures forall y :: y in xs && y != x ==> y in ys
  {
    if xs == [] then []
    else if xs[0] == x then xs[1..]
    else [xs[0]] + RemoveFirst(xs[1..], x)
  }

  datatype Redis = Redis(
    queues: map<TenantId, seq<Payload>>,
    procs: map<ProcKey, seq<Payload>>,
    beating: set<WorkerId>)
  {
    function Queue(t: TenantId): seq<Payload> {
      if t in queues then queues[t] else []
    }

    function Proc(w: WorkerId, t: TenantId): seq<Payload> {
      if ProcKey(w, t) in procs then procs[ProcKey(w, t)] else []
    }

    function LPush(t: TenantId, p: Payload): Redis {
      this.(queues := queues[t := [p] + Queue(t)])
    }

    function LRem(w: WorkerId, t: TenantId, p: Payload): Redis {
      this.(procs := procs[ProcKey(w, t) := RemoveFirst(Proc(w, t), p)])
    }

    /** Tail of the tenant queue to the head of the worker's processing list, in one command. */
    function LMove(w: WorkerId, t: TenantId): Redis
      requires Queue(t) != []
    {
      var q := Queue(t);
      Redis(queues[t := q[..|q| - 1]], procs[ProcKey(w, t) := [q[|q| - 1]] + Proc(w, t)], beating)
    }

    /** `transfer_proc_to_source`: the LPUSH happens only if the LREM removed something. */
    function Transfer(w: WorkerId, t: TenantId, p: Payload): Redis {
      if p in Proc(w, t) then LRem(w, t, p).LPush(t, p) else this
    }
  }

  // ---- The whole deployment ----

  /** Where a worker is inside `dispatch`. */
  datatype Pc =
    | Idle
    | Moved(tenant: TenantId, payload: Payload)
    | Claimed(tenant: TenantId, payload: Payload, token: Token)
    | Acked(tenant: TenantId, payload: Payload)
    | Infra(tenant: TenantId, payload: Payload)

  /** A requeue decision a scheduler committed; its LPUSH is still outstanding. */
  datatype Push = Push(sched: SchedulerId, tenant: TenantId, version: VersionId, payload: Payload)

  /** A job as a producer pushed it: the tenant whose queue it went to, and the payload. */
  datatype Job = Job(tenant: TenantId, payload: Payload)

  /** `produced` is history: every job a producer ever pushed. */
  datatype State = State(
    db: Db, redis: Redis, pcs: map<WorkerId, Pc>, requeue: multiset<Push>, produced: set<Job>)
  {
    function PcOf(w: WorkerId): Pc {
      if w in pcs then pcs[w] else Idle
    }

    function At(w: WorkerId, pc: Pc): State {
      this.(pcs := pcs[w := pc])
    }

    function DropPush(q: Push): State {
      this.(requeue := requeue - multiset{q})
    }
  }

  /**
    `lost` marks an effect whose reply never arrived: it happened, and the caller
    goes on as if it had failed. `failed` marks a command that had no effect.
  */
  datatype Action =
    | Tick(elapsed: nat)
    | CreateVersion(v: VersionId, t: TenantId)
    | Produce(t: TenantId, p: Payload)
    | LMove(w: WorkerId, t: TenantId, lost: bool)
    | Claim(w: WorkerId, k: Token, lost: bool)
    | InfraError(w: WorkerId)
    | Finish(w: WorkerId, done: bool, lost: bool)
    | LRem(w: WorkerId, failed: bool)
    | Transfer(w: WorkerId, lost: bool)
    | GiveUp(w: WorkerId)
    | Crash(w: WorkerId)
    | Heartbeat(w: WorkerId, present: bool)
    | Touch(t: TenantId, v: VersionId)
    | Reap(owner: WorkerId, t: TenantId, p: Payload)
    | Sweep(sched: SchedulerId, v: VersionId)
    | PushDone(q: Push, lost: bool)
    | PushFailed(q: Push, rolledBack: bool)
  {
    /** The worker whose program counter the action moves, if there is one. */
    function Actor(): Option<WorkerId> {
      match this
      case LMove(w, _, _) => Some(w)
      case Claim(w, _, _) => Some(w)
      case InfraError(w) => Some(w)
      case Finish(w, _, _) => Some(w)
      case LRem(w, _) => Some(w)
      case Transfer(w, _) => Some(w)
      case GiveUp(w) => Some(w)
      case Crash(w) => Some(w)
      case _ => None
    }

    /** The scheduler whose outstanding pushes the action changes, if there is one. */
    function Scheduler(): Option<SchedulerId> {
      match this
      case Sweep(sched, _) => Some(sched)
      case PushDone(q, _) => Some(q.sched)
      case PushFailed(q, _) => Some(q.sched)
      case _ => None
    }
  }

  function Step(s: State, a: Action): State {
    match a
    case Tick(elapsed) => s.(db := s.db.(now := s.db.now + elapsed))
    case CreateVersion(v, t) => if v in s.db.rows then s else s.(db := s.db.Create(v, t))
    case Produce(t, p) => StepProduce(s, t, p)
    case LMove(w, t, lost) => StepLMove(s, w, t, lost)
    case Claim(w, k, lost) => StepClaim(s, w, k, lost)
    case InfraError(w) =>
      var pc := s.PcOf(w);
      if pc.Moved? || pc.Claimed? then s.At(w, Infra(pc.tenant, pc.payload)) else s
    case Finish(w, done, lost) => StepFinish(s, w, done, lost)
    case LRem(w, failed) => StepLRem(s, w, failed)
    case Transfer(w, lost) => StepTransfer(s, w, lost)
    case GiveUp(w) =>
      if s.PcOf(w).Infra? then s.At(w, Idle).(redis := s.redis.(beating := s.redis.beating - {w})) else s
    case Crash(w) => s.At(w, Idle)
    case Heartbeat(w, present) =>
      s.(redis := s.redis.(beating := if present then s.redis.beating + {w} else s.redis.beating - {w}))
    case Touch(t, v) => if s.db.Claimable(t, v) then s.(db := s.db.Put(v, s.db.rows[v])) else s
    case Reap(owner, t, p) => s.(redis := s.redis.Transfer(owner, t, p))
    case Sweep(sched, v) => StepSweep(s, sched, v)
    case PushDone(q, lost) => StepPush(s, q, lost)
    case PushFailed(q, rolledBack) =>
      if q in s.requeue then
        if rolledBack && q.version in s.db.rows then s.DropPush(q).(db := s.db.RollBackRetry(q.version))
        else s.DropPush(q)
      else s
  }

  /** A producer pushes a job for an existing version. */
  function StepProduce(s: State, t: TenantId, p: Payload): State {
    if p.version in s.db.rows then s.(redis := s.redis.LPush(t, p), produced := s.produced + {Job(t, p)}) else s
  }

  function StepLMove(s: State, w: WorkerId, t: TenantId, lost: bool): State {
    var q := s.redis.Queue(t);
    if s.PcOf(w).Idle? && q != [] then
      var s' := s.(redis := s.redis.LMove(w, t));
      if lost then s' else s'.At(w, Moved(t, q[|q| - 1]))
    else s
  }

  /** `claim_for_processing`; a token that was issued before is never issued again. */
  function StepClaim(s: State, w: WorkerId, k: Token, lost: bool): State {
    var pc := s.PcOf(w);
    if pc.Moved? && k !in s.db.issued then
      if s.db.Claimable(pc.tenant, pc.payload.version) then
        s.(db := s.db.ClaimRow(pc.payload, k))
          .At(w, if lost then Infra(pc.tenant, pc.payload) else Claimed(pc.tenant, pc.payload, k))
      else
        s.At(w, if lost then Infra(pc.tenant, pc.payload) else Acked(pc.tenant, pc.payload))
    else s
  }

  /** The terminal write: `mark_ingest_done` with its unit of work, or `set_ingest_status('error')`. */
  function StepFinish(s: State, w: WorkerId, done: bool, lost: bool): State {
    var pc := s.PcOf(w);
    if pc.Claimed? then
      var db' := if s.db.Owns(pc.tenant, pc.payload.version, pc.token)
                 then s.db.FinishRow(pc.payload.version, pc.token, done) else s.db;
      s.(db := db').At(w, if lost then Infra(pc.tenant, pc.payload) else Acked(pc.tenant, pc.payload))
    else s
  }

  /** The acknowledgement: the worker drops its own processing-list entry. */
  function StepLRem(s: State, w: WorkerId, failed: bool): State {
    var pc := s.PcOf(w);
    if pc.Acked? then
      s.At(w, Idle).(redis := if failed then s.redis else s.redis.LRem(w, pc.tenant, pc.payload))
    else s
  }

  /** After an infrastructure error the worker hands its entry back; a lost reply is retried. */
  function StepTransfer(s: State, w: WorkerId, lost: bool): State {
    var pc := s.PcOf(w);
    if pc.Infra? then
      var s' := s.(redis := s.redis.Transfer(w, pc.tenant, pc.payload));
      if lost then s' else s'.At(w, Idle)
    else s
  }

  /** One row of a committed sweep, with the requeue decision it leaves behind. */
  function StepSweep(s: State, sched: SchedulerId, v: VersionId): State {
    if s.db.Sweepable(v) then
      var r := s.db.rows[v];
      var s' := s.(db := s.db.SweepRow(v));
      if s.db.CanRequeue(v) then s'.(requeue := s.requeue + multiset{Push(sched, r.tenant, v, r.payload.value)}) else s'
    else s
  }

  function StepPush(s: State, q: Push, lost: bool): State {
    if q in s.requeue then
      var s' := s.(redis := s.redis.LPush(q.tenant, q.payload));
      if lost then s' else s'.DropPush(q)
    else s
  }

  /** The state after a whole run. */
  function Run(s: State, acts: seq<Action>): State {
    if acts == [] then s else Step(Run(s, acts[..|acts| - 1]), acts[|acts| - 1])
  }

  lemma {:induction false} RunConcat(s: State, xs: seq<Action>, ys: seq<Action>)
    ensures Run(s, xs + ys) == Run(Run(s, xs), ys)
  {
    if ys == [] {
      assert xs + ys == xs;
    } else {
      var init := ys[..|ys| - 1];
      assert (xs + ys)[..|xs + ys| - 1] == xs + init;
      RunConcat(s, xs, init);
    }
  }

  lemma RunOne(s: State, a: Action)
    ensures Run(s, [a]) == Step(s, a)
  {
    assert [a][..0] == [];
  }

  lemma RunThen(s: State, acts: seq<Action>, a: Action)
    ensures Run(s, acts + [a]) == Step(Run(s, acts), a)
  {
    assert (acts + [a])[..|acts|] == acts;
  }

  /** A deployment at rest: no versions, no jobs, no claims. */
  ghost predicate Init(s: State) {
    && s.db.rows == map[] && s.db.issued == {} && s.db.terminals == multiset{}
    && s.db.chunks == map[] && s.db.claims == map[] && s.db.rollbacks == map[]
    && s.redis.queues == map[] && s.redis.procs == map[]
    && s.pcs == map[] && s.requeue == multiset{} && s.produced == {}
  }
}
