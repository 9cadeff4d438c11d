/**
  What every copy of a job is: one that a producer pushed for that version, to
  the queue of the tenant under whom the copy is found.
*/
module IngestPayloads {
  import opened Wrappers
  import opened IngestProtocol
  import opened IngestSafety

  /** The lists of a tenant hold what was pushed to its queue. */
  ghost predicate ListsGenuine(s: State) {
    forall t, x :: Holds(s.redis, t, x) ==> Job(t, x) in s.produced
  }

  predicate PcGenuine(s: State, pc: Pc) {
    !pc.Idle? ==> Job(pc.tenant, pc.payload) in s.produced
  }

  /** A row keeps a job of its own tenant and version. */
  predicate RowGenuine(s: State, v: VersionId)
    requires v in s.db.rows
  {
    var r := s.db.rows[v];
    r.payload.Some? ==> r.payload.value.version == v && Job(r.tenant, r.payload.value) in s.produced
  }

  predicate PushGenuine(s: State, q: Push) {
    q.payload.version == q.version && Job(q.tenant, q.payload) in s.produced
  }

  /** Listed, taken, saved or about to be pushed: every copy of a job is genuine. */
  ghost predicate Genuine(s: State) {
    && ListsGenuine(s)
    && (forall w :: w in s.pcs ==> PcGenuine(s, s.pcs[w]))
    && (forall v :: v in s.db.rows ==> RowGenuine(s, v))
    && (forall q :: q in s.requeue ==> PushGenuine(s, q))
  }

  // ---- Every step keeps the copies genuine ----

  lemma StepKeepsLists(s: State, a: Action)
    requires Genuine(s)
    ensures ListsGenuine(Step(s, a))
  {
    StepProduces(s, a);
    forall t, x | Holds(Step(s, a).redis, t, x) ensures Job(t, x) in Step(s, a).produced {
      StepBrings(s, a, t, x);
    }
  }

  /** A copy on a list was there before, or a producer or a requeue has just pushed it. */
  lemma StepBrings(s: State, a: Action, t: TenantId, x: Payload)
    requires Holds(Step(s, a).redis, t, x)
    ensures || Holds(s.redis, t, x)
            || (a == Produce(t, x) && x.version in s.db.rows)
            || (a.PushDone? && a.q in s.requeue && a.q.tenant == t && a.q.payload == x)
  {
    match a
    case Produce(t', p) => if p.version in s.db.rows { LPushHolds(s.redis, t', p, t, x); }
    case LMove(w, t', _) => if s.redis.Queue(t') != [] { LMoveHolds(s.redis, w, t', t, x); }
    case PushDone(q, _) => if q in s.requeue { LPushHolds(s.redis, q.tenant, q.payload, t, x); }
    case LRem(w, _) => if s.PcOf(w).Acked? { LRemHolds(s.redis, w, s.PcOf(w).tenant, s.PcOf(w).payload, t, x); }
    case Transfer(_, _) => BackStepHolds(s, a, t, x);
    case Reap(_, _, _) => BackStepHolds(s, a, t, x);
    case _ =>
      RestLeavesLists(s, a);
      SameListsHold(s.redis, Step(s, a).redis, t, x);
  }

  lemma StepKeepsPcs(s: State, a: Action, w: WorkerId)
    requires Genuine(s)
    ensures PcGenuine(Step(s, a), Step(s, a).PcOf(w))
  {
    StepProduces(s, a);
    assert PcGenuine(s, s.PcOf(w));
    PcFrom(s, a, w);
    var pc := Step(s, a).PcOf(w);
    if pc.Moved? && pc != s.PcOf(w) {
      assert Holds(s.redis, pc.tenant, pc.payload);
    }
  }

  /** A worker has the job it had, or the one it has just taken off a queue. */
  lemma PcFrom(s: State, a: Action, w: WorkerId)
    ensures var prev, pc := s.PcOf(w), Step(s, a).PcOf(w);
            || pc.Idle?
            || (!prev.Idle? && pc.tenant == prev.tenant && pc.payload == prev.payload)
            || (pc.Moved? && pc.payload in s.redis.Queue(pc.tenant))
  {
    if a.Actor() != Some(w) {
      StaysPut(s, a, w);
    }
  }

  lemma StaysPut(s: State, a: Action, w: WorkerId)
    requires a.Actor() != Some(w)
    ensures Step(s, a).PcOf(w) == s.PcOf(w)
  {
  }

  lemma StepKeepsRows(s: State, a: Action, v: VersionId)
    requires Genuine(s) && v in Step(s, a).db.rows
    ensures RowGenuine(Step(s, a), v)
  {
    StepProduces(s, a);
    StepExecutes(s, a);
    PayloadFrom(s.db, StatementOf(s, a), v);
    if v in s.db.rows {
      assert RowGenuine(s, v);
    }
    if StatementOf(s, a).ClaimOf? {
      assert PcGenuine(s, s.PcOf(a.w));
    }
  }

  /** A row's payload is the one it had, or that of the claim that has just taken it. */
  lemma PayloadFrom(db: Db, st: Statement, v: VersionId)
    requires Enabled(db, st) && v in Exec(db, st).rows
    ensures var r := Exec(db, st).rows[v];
            || r.payload.None?
            || (v in db.rows && db.rows[v].tenant == r.tenant && db.rows[v].payload == r.payload)
            || (st.ClaimOf? && st.p.version == v && v in db.rows && db.rows[v].tenant == r.tenant && r.payload == Some(st.p))
  {
  }

  lemma StepKeepsPushes(s: State, a: Action, q: Push)
    requires Genuine(s) && q in Step(s, a).requeue
    ensures PushGenuine(Step(s, a), q)
  {
    StepProduces(s, a);
    if q in s.requeue {
      assert PushGenuine(s, q);
    } else {
      StepAddsPushes(s, a, q);
      assert RowGenuine(s, a.v);
    }
  }

  lemma StepKeepsGenuine(s: State, a: Action)
    requires Genuine(s)
    ensures Genuine(Step(s, a))
  {
    var s' := Step(s, a);
    StepKeepsLists(s, a);
    forall w | w in s'.pcs ensures PcGenuine(s', s'.pcs[w]) {
      StepKeepsPcs(s, a, w);
      assert s'.PcOf(w) == s'.pcs[w];
    }
    forall v | v in s'.db.rows ensures RowGenuine(s', v) {
      StepKeepsRows(s, a, v);
    }
    forall q | q in s'.requeue ensures PushGenuine(s', q) {
      StepKeepsPushes(s, a, q);
    }
  }

  lemma {:induction false} RunKeepsGenuine(s: State, acts: seq<Action>)
    requires Genuine(s)
    ensures Genuine(Run(s, acts))
  {
    if acts != [] {
      RunKeepsGenuine(s, acts[..|acts| - 1]);
      StepKeepsGenuine(Run(s, acts[..|acts| - 1]), acts[|acts| - 1]);
    }
  }

  /** In every reachable state every copy of a job is one a producer pushed for that version, to that tenant's queue. */
  lemma CopiesAreGenuine(s: State, acts: seq<Action>)
    requires Init(s)
    ensures Genuine(Run(s, acts))
  {
    assert forall t, x :: !Holds(s.redis, t, x);
    RunKeepsGenuine(s, acts);
  }

  /**
    No job is lost, nor its contents: in every reachable state a version whose
    job was enqueued is finished, or its row holds a job that was pushed for it
    to its tenant's queue, or such a job is on one of that tenant's lists.
  */
  lemma NoJobIsLost(s: State, acts: seq<Action>, job: Job)
    requires Init(s) && Enqueued(Run(s, acts), job)
    ensures var s', v := Run(s, acts), job.payload.version;
            || s'.db.rows[v].Terminal()
            || exists x: Payload :: x.version == v && Job(job.tenant, x) in s'.produced
                 && (s'.db.rows[v].payload == Some(x) || Holds(s'.redis, job.tenant, x))
  {
    InitHasInv(s);
    RunKeepsInv(s, acts);
    CopiesAreGenuine(s, acts);
    var s', v := Run(s, acts), job.payload.version;
    assert Recoverable(s', v) && RowGenuine(s', v);
    if !s'.db.rows[v].Settled() {
      var x :| Holds(s'.redis, job.tenant, x) && x.version == v;
      assert Job(job.tenant, x) in s'.produced;
    }
  }
}
