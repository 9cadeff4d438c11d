/** What the stuck threshold decides: how long a claim is safe, and which rows a sweep gives up. */
module IngestThreshold {
  import opened Wrappers
  import opened IngestProtocol
  import opened IngestSafety

  /**
    The claim with token `k`, made at `t0`, took its course: the row is still being
    processed under it, or the token made the terminal write, and then the row is
    finished and, if it is done, with the chunks of this claim.
  */
  ghost predicate Undisturbed(db: Db, t: TenantId, v: VersionId, k: Token, t0: int) {
    && v in db.rows && db.rows[v].tenant == t && k in db.issued
    && if k in db.terminals then db.rows[v].Terminal() && (db.rows[v].status.Done? ==> v in db.chunks && db.chunks[v] == k)
       else db.rows[v].status.Processing? && db.rows[v].token == Some(k) && db.rows[v].updatedAt >= t0
  }

  lemma ExecKeepsClaim(db: Db, st: Statement, t: TenantId, v: VersionId, k: Token, t0: int)
    requires DbOk(db) && Enabled(db, st) && Undisturbed(db, t, v, k, t0) && k !in db.terminals
    requires db.now <= t0 + db.stuckAfter && t0 <= db.now
    ensures Undisturbed(Exec(db, st), t, v, k, t0)
  {
    if st.FinishOf? && st.k == k {
      assert st.v == v;
    }
  }

  lemma ExecKeepsFinished(db: Db, st: Statement, t: TenantId, v: VersionId, k: Token, t0: int)
    requires RowsOk(db) && Enabled(db, st) && Undisturbed(db, t, v, k, t0) && k in db.terminals
    ensures Undisturbed(Exec(db, st), t, v, k, t0)
  {
    assert RowOk(db, v);
  }

  lemma ExecKeepsThreshold(db: Db, st: Statement)
    requires Enabled(db, st)
    ensures Exec(db, st).stuckAfter == db.stuckAfter && Exec(db, st).now >= db.now
  {
  }

  lemma {:induction false} RunKeepsUndisturbed(s: State, acts: seq<Action>, t: TenantId, v: VersionId, k: Token, t0: int)
    requires Inv(s) && Undisturbed(s.db, t, v, k, t0) && t0 <= s.db.now
    requires Run(s, acts).db.now <= t0 + s.db.stuckAfter
    ensures Undisturbed(Run(s, acts).db, t, v, k, t0)
    ensures Run(s, acts).db.stuckAfter == s.db.stuckAfter && Run(s, acts).db.now >= s.db.now
  {
    if acts != [] {
      var mid, a := Run(s, acts[..|acts| - 1]), acts[|acts| - 1];
      StepExecutes(mid, a);
      ExecKeepsThreshold(mid.db, StatementOf(mid, a));
      RunKeepsUndisturbed(s, acts[..|acts| - 1], t, v, k, t0);
      RunKeepsInv(s, acts[..|acts| - 1]);
      if k in mid.db.terminals {
        ExecKeepsFinished(mid.db, StatementOf(mid, a), t, v, k, t0);
      } else {
        ExecKeepsClaim(mid.db, StatementOf(mid, a), t, v, k, t0);
      }
    }
  }

  /** The worker is about to claim a row it may claim, with a new token. */
  ghost predicate Claims(s: State, w: WorkerId, k: Token) {
    s.PcOf(w).Moved? && s.db.Claimable(s.PcOf(w).tenant, s.PcOf(w).payload.version) && k !in s.db.issued
  }

  lemma ClaimStarts(s: State, w: WorkerId, k: Token, lost: bool, t: TenantId, v: VersionId)
    requires Inv(s) && Claims(s, w, k) && t == s.PcOf(w).tenant && v == s.PcOf(w).payload.version
    ensures var db := Step(s, Claim(w, k, lost)).db;
            && Undisturbed(db, t, v, k, s.db.now) && db.now == s.db.now && db.stuckAfter == s.db.stuckAfter
            && db.rows[v].status.Processing? && db.Owns(t, v, k) && db.rows[v].updatedAt == s.db.now
  {
    StepExecutes(s, Claim(w, k, lost));
    NewTokenIsUnused(s, k);
  }

  /** Until the threshold has passed since the claim, nobody takes it away, in any run. */
  lemma ClaimIsSafeWithinThreshold(s: State, w: WorkerId, k: Token, lost: bool, acts: seq<Action>)
    requires Inv(s) && Claims(s, w, k)
    requires Run(Step(s, Claim(w, k, lost)), acts).db.now <= s.db.now + s.db.stuckAfter
    ensures Undisturbed(Run(Step(s, Claim(w, k, lost)), acts).db, s.PcOf(w).tenant, s.PcOf(w).payload.version, k, s.db.now)
  {
    ClaimStarts(s, w, k, lost, s.PcOf(w).tenant, s.PcOf(w).payload.version);
    InvAfter(s, Claim(w, k, lost));
    RunKeepsUndisturbed(Step(s, Claim(w, k, lost)), acts, s.PcOf(w).tenant, s.PcOf(w).payload.version, k, s.db.now);
  }

  lemma InvAfter(s: State, a: Action)
    requires Inv(s)
    ensures Inv(Step(s, a))
  {
    RunOne(s, a);
    RunKeepsInv(s, [a]);
  }

  lemma NewTokenIsUnused(s: State, k: Token)
    requires Inv(s) && k !in s.db.issued
    ensures k !in s.db.terminals
  {
  }

  /** The threshold is exact: a sweep that follows takes the claim away if and only if it has passed. */
  lemma SweepTakesClaimIff(s: State, w: WorkerId, k: Token, lost: bool, wait: nat, sched: SchedulerId)
    requires Inv(s) && Claims(s, w, k)
    ensures var p := s.PcOf(w).payload;
            Run(Step(s, Claim(w, k, lost)), [Tick(wait), Sweep(sched, p.version)]).db.Owns(s.PcOf(w).tenant, p.version, k)
            <==> wait <= s.db.stuckAfter
  {
    ClaimStarts(s, w, k, lost, s.PcOf(w).tenant, s.PcOf(w).payload.version);
    WaitAndSweep(Step(s, Claim(w, k, lost)), wait, sched, s.PcOf(w).tenant, s.PcOf(w).payload.version, k);
  }

  lemma WaitAndSweep(s: State, wait: nat, sched: SchedulerId, t: TenantId, v: VersionId, k: Token)
    requires s.db.Owns(t, v, k) && s.db.rows[v].status.Processing? && s.db.rows[v].updatedAt == s.db.now
    ensures Run(s, [Tick(wait), Sweep(sched, v)]).db.Owns(t, v, k) <==> wait <= s.db.stuckAfter
  {
    RunOne(s, Tick(wait));
    RunThen(s, [Tick(wait)], Sweep(sched, v));
    assert [Tick(wait)] + [Sweep(sched, v)] == [Tick(wait), Sweep(sched, v)];
    SweepTakesIff(s.db.(now := s.db.now + wait), t, v, k);
    StepExecutes(Step(s, Tick(wait)), Sweep(sched, v));
  }

  lemma SweepTakesIff(db: Db, t: TenantId, v: VersionId, k: Token)
    requires db.Owns(t, v, k) && db.rows[v].status.Processing?
    ensures (if db.Sweepable(v) then db.SweepRow(v) else db).Owns(t, v, k)
            <==> db.now - db.rows[v].updatedAt <= db.stuckAfter
  {
  }

  /**
    A version fails for one of three reasons: its own claim reported that the work
    failed, or it was stuck for longer than the threshold and either no payload
    was saved or every resume attempt is used up.
  */
  lemma FailureIsJustified(s: State, a: Action, v: VersionId)
    requires v in s.db.rows && !s.db.rows[v].status.Error? && v in Step(s, a).db.rows && Step(s, a).db.rows[v].status.Error?
    ensures || (a.Finish? && !a.done && s.PcOf(a.w).Claimed? && s.db.rows[v].token == Some(s.PcOf(a.w).token))
            || (&& a.Sweep? && a.v == v && s.db.now - s.db.rows[v].updatedAt > s.db.stuckAfter
                && (s.db.rows[v].payload == None || s.db.rows[v].retries >= s.db.maxResume))
  {
    StepExecutes(s, a);
    StatementFails(s.db, StatementOf(s, a), v);
  }

  lemma StatementFails(db: Db, st: Statement, v: VersionId)
    requires Enabled(db, st) && v in db.rows && !db.rows[v].status.Error? && Exec(db, st).rows[v].status.Error?
    ensures st.FinishOf? || st.SweepOf?
    ensures st.FinishOf? ==> st.v == v && !st.done && db.rows[v].token == Some(st.k)
    ensures st.SweepOf? ==> && st.v == v && db.now - db.rows[v].updatedAt > db.stuckAfter
                            && (db.rows[v].payload == None || db.rows[v].retries >= db.maxResume)
  {
  }

  /** A stuck version that can be resumed is resumed: pending again, its job saved and about to be pushed. */
  lemma SweepResumes(s: State, sched: SchedulerId, v: VersionId)
    requires v in s.db.rows && !s.db.rows[v].Terminal() && s.db.now - s.db.rows[v].updatedAt > s.db.stuckAfter
    requires s.db.rows[v].payload.Some? && s.db.rows[v].retries < s.db.maxResume
    ensures var r, s' := s.db.rows[v], Step(s, Sweep(sched, v));
            && s'.db.rows[v] == Row(r.tenant, Pending, None, r.payload, r.retries + 1, s.db.now)
            && s'.requeue[Push(sched, r.tenant, v, r.payload.value)] == s.requeue[Push(sched, r.tenant, v, r.payload.value)] + 1
  {
  }
}
