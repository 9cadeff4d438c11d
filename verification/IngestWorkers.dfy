/**
  The programs that drive the ingest protocol. Each works on a shared cluster
  that other workers, schedulers and producers may change between any two of
  its own commands; whatever happens, the cluster is always the result of a run
  of the protocol, so everything proved about runs holds throughout.
*/
module IngestWorkers {
  import opened Wrappers
  import opened Collections
  import opened IngestProtocol
  import opened IngestSafety

  /** `states[i]` is the state after the first `i` actions. */
  ghost predicate Recorded(origin: State, log: seq<Action>, states: seq<State>) {
    && |states| == |log| + 1
    && forall i {:trigger Run(origin, log[..i])} :: 0 <= i <= |log| ==> states[i] == Run(origin, log[..i])
  }

  lemma RecordedMore(origin: State, log: seq<Action>, states: seq<State>, a: Action)
    requires Recorded(origin, log, states)
    ensures Recorded(origin, log + [a], states + [Step(states[|log|], a)])
  {
    var log', states' := log + [a], states + [Step(states[|log|], a)];
    assert log[..|log|] == log;
    RunThen(origin, log, a);
    forall i | 0 <= i <= |log'| ensures states'[i] == Run(origin, log'[..i]) {
      if i <= |log| {
        assert log'[..i] == log[..i];
      } else {
        assert log'[..i] == log';
      }
    }
  }

  lemma RunSince(origin: State, log: seq<Action>, states: seq<State>, n: nat)
    requires Recorded(origin, log, states) && n <= |log|
    ensures states[|log|] == Run(states[n], log[n..])
  {
    assert states[|log|] == Run(origin, log[..|log|]);
    assert states[n] == Run(origin, log[..n]);
    assert log[..|log|] == log[..n] + log[n..];
    RunConcat(origin, log[..n], log[n..]);
  }

  /** Postgres and Redis as every process sees them, with the run that led here. */
  class Cluster {
    var st: State
    ghost const origin: State
    ghost var log: seq<Action>
    ghost var states: seq<State>

    ghost predicate Valid()
      reads this
    {
      Init(origin) && Recorded(origin, log, states) && states[|log|] == st
    }

    /** What happened stays what happened. */
    twostate predicate Grown()
      reads this
    {
      old(log) <= log && old(states) <= states
    }

    constructor (maxResume: nat, stuckAfter: nat, now: int)
      ensures Valid() && log == [] && states == [st]
      ensures st.db.maxResume == maxResume && st.db.stuckAfter == stuckAfter && st.db.now == now
    {
      var s := State(Db(maxResume, stuckAfter, now, map[], {}, multiset{}, map[], map[], map[]),
                     Redis(map[], map[], {}), map[], multiset{}, {});
      st := s;
      origin := s;
      log := [];
      states := [s];
      new;
      assert log[..0] == [];
    }

    /** One atomic command. */
    method Do(a: Action)
      requires Valid()
      modifies this
      ensures Valid() && log == old(log) + [a] && st == Step(old(st), a) && states == old(states) + [st]
    {
      RecordedMore(origin, log, states, a);
      st := Step(st, a);
      log := log + [a];
      states := states + [st];
    }

    /** Everyone else takes any number of steps. */
    method Interfere(me: Option<WorkerId>, sched: Option<SchedulerId>)
      requires Valid()
      modifies this
      ensures Valid() && Grown() && OthersOnly(log[|old(log)|..], me, sched)
    {
      // The caller may rely on nothing beyond the postcondition.
    }

    lemma IsRun()
      requires Valid()
      ensures st == Run(origin, log)
    {
      assert log[..|log|] == log;
      assert states[|log|] == Run(origin, log[..|log|]);
    }

    /** The state reached since a past one is reached from it by the rest of the log. */
    lemma Since(n: nat)
      requires Valid() && n <= |log|
      ensures st == Run(states[n], log[n..])
    {
      RunSince(origin, log, states, n);
    }

    lemma Safe()
      requires Valid()
      ensures Inv(st)
    {
      InitHasInv(origin);
      RunKeepsInv(origin, log);
      IsRun();
    }
  }

  ghost predicate OthersOnly(acts: seq<Action>, me: Option<WorkerId>, sched: Option<SchedulerId>) {
    forall i :: 0 <= i < |acts| ==>
      (me.Some? ==> acts[i].Actor() != me) && (sched.Some? ==> acts[i].Scheduler() != sched)
  }

  /** Nobody else moves a worker's program counter. */
  lemma {:induction false} OthersLeaveWorker(s: State, acts: seq<Action>, w: WorkerId)
    requires OthersOnly(acts, Some(w), None)
    ensures Run(s, acts).PcOf(w) == s.PcOf(w)
  {
    if acts != [] {
      var init, a := acts[..|acts| - 1], acts[|acts| - 1];
      OthersLeaveWorker(s, init, w);
      assert a.Actor() != Some(w);
      StepLeavesWorker(Run(s, init), a, w);
    }
  }

  lemma StepLeavesWorker(s: State, a: Action, w: WorkerId)
    requires a.Actor() != Some(w)
    ensures Step(s, a).PcOf(w) == s.PcOf(w)
  {
  }

  /** Nobody else discharges a scheduler's outstanding pushes. */
  lemma {:induction false} OthersLeavePushes(s: State, acts: seq<Action>, q: Push)
    requires OthersOnly(acts, None, Some(q.sched))
    ensures Run(s, acts).requeue[q] == s.requeue[q]
  {
    if acts != [] {
      var init, a := acts[..|acts| - 1], acts[|acts| - 1];
      OthersLeavePushes(s, init, q);
      assert a.Scheduler() != Some(q.sched);
      StepLeavesPushes(Run(s, init), a, q);
    }
  }

  lemma StepLeavesPushes(s: State, a: Action, q: Push)
    requires a.Scheduler() != Some(q.sched)
    ensures Step(s, a).requeue[q] == s.requeue[q]
  {
    match a
    case Sweep(_, _) =>
    case PushDone(q', _) =>
    case PushFailed(q', _) =>
    case _ => RestLeavesPushes(s, a);
  }

  lemma RestLeavesPushes(s: State, a: Action)
    requires !a.Sweep? && !a.PushDone? && !a.PushFailed?
    ensures Step(s, a).requeue == s.requeue
  {
  }

  lemma HasFresh(issued: set<Token>)
    ensures exists k: Token :: k !in issued
  {
    if issued == {} {
      assert 0 !in issued;
    } else {
      var negated := set k | k in issued :: -(k as int);
      assert forall k :: k in issued ==> -(k as int) in negated;
      var k :| k in issued;
      var unused: Token := 1 - Min(negated);
      assert unused !in issued;
    }
  }

  // ---- What a worker reports ----

  datatype Outcome = Failed | Processed | TerminalError | DuplicateSkipped | OwnershipLost

  /** A token issued since `before` made a terminal write. */
  ghost predicate Spent(before: Db, after: Db, k: Token) {
    k !in before.issued && after.terminals[k] >= 1
  }

  /** What an outcome says about the row: finished, or failed, by a claim made since `before`. */
  ghost predicate Truthful(outcome: Outcome, v: VersionId, before: Db, after: Db) {
    && (outcome.Processed? ==>
          v in after.rows && after.rows[v].status.Done? && v in after.chunks && Spent(before, after, after.chunks[v]))
    && (outcome.TerminalError? ==> v in after.rows && after.rows[v].status.Error? && exists k :: Spent(before, after, k))
  }

  lemma StaysTruthful(outcome: Outcome, v: VersionId, before: Db, mid: Db, after: Db)
    requires Truthful(outcome, v, before, mid) && mid.terminals <= after.terminals
    requires v in mid.rows && mid.rows[v].Terminal() ==> SameOutcome(mid, after, v)
    ensures Truthful(outcome, v, before, after)
  {
    if outcome.TerminalError? {
      var k :| Spent(before, mid, k);
      assert Spent(before, after, k);
    }
  }

  /** Where a call's claim and terminal write are in the log, and the token of the claim. */
  datatype Trace = Trace(token: Token, claimAt: nat, finishAt: nat)

  /**
    The outcome of a call that sent commands `n` up to `to`, as the log has it:
    nothing is reported without an answer; a duplicate is a row that could not be
    claimed in the state the claim ran in; ownership was lost if the call's token
    did not mark the row in the state the terminal write ran in; and otherwise
    the outcome is that of the work.
  */
  ghost predicate Decided(
    outcome: Outcome, trace: Trace, states: seq<State>, log: seq<Action>, id: WorkerId, fate: nat -> Fate, work: nat -> bool,
    t: TenantId, v: VersionId, n: nat, to: nat)
  {
    && trace.claimAt <= trace.finishAt < |log| && trace.finishAt < |states|
    && (if !fate(n).Answered? then outcome.Failed? && to == n + 1
        else
          && log[trace.claimAt] == Claim(id, trace.token, false)
          && if !states[trace.claimAt].db.Claimable(t, v) then outcome.DuplicateSkipped? && to == n + 1
             else
               && to == n + 2
               && if !fate(n + 1).Answered? then outcome.Failed?
                  else
                    && trace.claimAt < trace.finishAt && log[trace.finishAt] == Finish(id, work(n + 1), false)
                    && outcome == (if !states[trace.finishAt].db.Owns(t, v, trace.token) then OwnershipLost
                                   else if work(n + 1) then Processed else TerminalError))
  }

  lemma StaysDecided(
    outcome: Outcome, trace: Trace, states: seq<State>, log: seq<Action>, states': seq<State>, log': seq<Action>, id: WorkerId,
    fate: nat -> Fate, work: nat -> bool, t: TenantId, v: VersionId, n: nat, to: nat)
    requires Decided(outcome, trace, states, log, id, fate, work, t, v, n, to) && states <= states' && log <= log'
    ensures Decided(outcome, trace, states', log', id, fate, work, t, v, n, to)
  {
  }

  /**
    One LMOVE of a rotation: the tenant and its place in the list, the number of
    the command, the place in the log where it ran, and whether the queue had a
    job there and Redis answered. `closed` is where the job that was handed over
    was closed.
  */
  datatype Probe = Probe(index: nat, tenant: TenantId, number: nat, at: nat, closed: nat, waiting: bool, replied: bool)
  {
    predicate Hit() {
      waiting && replied
    }
  }

  /** The tenant's queue when the probe ran. */
  ghost function QueueAt(states: seq<State>, p: Probe): seq<Payload>
    requires p.at < |states|
  {
    states[p.at].redis.Queue(p.tenant)
  }

  /** The probe is what happened: the command is in the log unless it never ran, and the queue was as stated. */
  ghost predicate Sent(states: seq<State>, log: seq<Action>, id: WorkerId, fate: nat -> Fate, p: Probe) {
    && p.at < |states|
    && p.waiting == (QueueAt(states, p) != [])
    && p.replied == fate(p.number).Answered?
    && (!fate(p.number).Unreached? ==> p.at < |log| && log[p.at] == LMove(id, p.tenant, fate(p.number).ReplyLost?))
  }

  /** The command that ends a dispatch: acknowledged, handed back, or given up. */
  predicate Closes(a: Action, id: WorkerId) {
    (a.LRem? && a.w == id) || a == Transfer(id, false) || a == GiveUp(id)
  }

  ghost predicate Witnessed(states: seq<State>, log: seq<Action>, id: WorkerId, fate: nat -> Fate, p: Probe) {
    Sent(states, log, id, fate, p) && (p.Hit() ==> p.at < p.closed < |log| && Closes(log[p.closed], id))
  }

  lemma ClosedProbe(
    states: seq<State>, taken: seq<Action>, states': seq<State>, log: seq<Action>, id: WorkerId, fate: nat -> Fate, p: Probe)
    requires Sent(states, taken, id, fate, p) && p.at < |taken| && taken < log && states <= states' && Closes(log[|log| - 1], id)
    ensures Witnessed(states', log, id, fate, p.(closed := |log| - 1))
  {
  }

  ghost predicate AllWitnessed(states: seq<State>, log: seq<Action>, id: WorkerId, fate: nat -> Fate, probes: seq<Probe>) {
    forall i :: 0 <= i < |probes| ==> Witnessed(states, log, id, fate, probes[i])
  }

  lemma AllWitnessedStay(
    states: seq<State>, log: seq<Action>, states': seq<State>, log': seq<Action>, id: WorkerId, fate: nat -> Fate, probes: seq<Probe>)
    requires AllWitnessed(states, log, id, fate, probes) && log <= log' && states <= states'
    ensures AllWitnessed(states', log', id, fate, probes)
  {
    forall i | 0 <= i < |probes| ensures Witnessed(states', log', id, fate, probes[i]) {
      assert Witnessed(states, log, id, fate, probes[i]);
    }
  }

  /** The probes went to the tenants they name, each as a later command than the one before. */
  ghost predicate InOrder(probes: seq<Probe>, tenants: seq<TenantId>, from: nat, to: nat) {
    && (forall i :: 0 <= i < |probes| ==>
          probes[i].index < |tenants| && probes[i].tenant == tenants[probes[i].index] && from <= probes[i].number < to)
    && (forall i, j :: 0 <= i < j < |probes| ==> probes[i].number < probes[j].number)
  }

  /** Probes in cursor order from `start` on, each of which happened once the log had grown to `since`. */
  ghost predicate Trail(
    states: seq<State>, log: seq<Action>, id: WorkerId, fate: nat -> Fate, mine: seq<Probe>,
    tenants: seq<TenantId>, start: nat, since: nat, from: nat, to: nat)
  {
    && |mine| <= |tenants| && start < |tenants| && NotBefore(mine, since)
    && (forall i :: 0 <= i < |mine| ==> mine[i].index == Turn(start, i, |tenants|))
    && InOrder(mine, tenants, from, to)
    && AllWitnessed(states, log, id, fate, mine)
  }

  predicate NotBefore(mine: seq<Probe>, since: nat) {
    forall i :: 0 <= i < |mine| ==> since <= mine[i].at
  }

  predicate NoHits(mine: seq<Probe>) {
    forall i :: 0 <= i < |mine| ==> !mine[i].Hit()
  }

  lemma TrailMore(
    states: seq<State>, log: seq<Action>, states': seq<State>, log': seq<Action>, id: WorkerId, fate: nat -> Fate,
    mine: seq<Probe>, p: Probe, mine': seq<Probe>, tenants: seq<TenantId>, start: nat, since: nat, from: nat, to: nat)
    requires mine' == mine + [p] && |mine| < |tenants|
    requires Trail(states, log, id, fate, mine, tenants, start, since, from, p.number) && since <= p.at && states <= states' && log <= log'
    requires Witnessed(states', log', id, fate, p) && from <= p.number < to
    requires p.index == Turn(start, |mine|, |tenants|) && p.tenant == tenants[p.index]
    ensures Trail(states', log', id, fate, mine', tenants, start, since, from, to)
    ensures Turn(p.index, 1, |tenants|) == Turn(start, |mine'|, |tenants|)
  {
    AllWitnessedStay(states, log, states', log', id, fate, mine);
  }

  /** The probes of one rotation: in cursor order, only the last may be a hit, and no work only after a full turn. */
  ghost predicate OneRotation(mine: seq<Probe>, start: nat, n: nat, dispatched: bool, stopped: bool) {
    && |mine| <= n && (start < n || start == 0)
    && (forall i :: 0 <= i < |mine| ==> mine[i].index == Turn(start, i, n))
    && (forall i :: 0 <= i < |mine| - 1 ==> !mine[i].Hit())
    && (dispatched <==> mine != [] && mine[|mine| - 1].Hit())
    && (!dispatched && !stopped ==> |mine| == n)
  }

  lemma MissesEnd(mine: seq<Probe>, start: nat, n: nat, stopped: bool)
    requires |mine| <= n && start < n && NoHits(mine) && (stopped || |mine| == n)
    requires forall i :: 0 <= i < |mine| ==> mine[i].index == Turn(start, i, n)
    ensures OneRotation(mine, start, n, false, stopped)
  {
  }

  lemma HitEnds(was: seq<Probe>, p: Probe, mine: seq<Probe>, start: nat, n: nat)
    requires mine == was + [p] && |mine| <= n && start < n && NoHits(was) && p.Hit()
    requires forall i :: 0 <= i < |mine| ==> mine[i].index == Turn(start, i, n)
    ensures OneRotation(mine, start, n, true, false)
  {
  }

  /** What a worker knows of its probes. */
  ghost predicate Followed(
    states: seq<State>, log: seq<Action>, id: WorkerId, fate: nat -> Fate, probes: seq<Probe>,
    tenants: seq<TenantId>, cursor: nat, to: nat)
  {
    && Cyclic(probes, |tenants|)
    && (probes != [] ==> cursor == Turn(probes[|probes| - 1].index, 1, |tenants|))
    && InOrder(probes, tenants, 0, to)
    && AllWitnessed(states, log, id, fate, probes)
  }

  /** Behind the probes so far come those of a rotation that starts where they left the cursor. */
  lemma FollowedMore(
    states: seq<State>, log: seq<Action>, states': seq<State>, log': seq<Action>, id: WorkerId, fate: nat -> Fate,
    before: seq<Probe>, mine: seq<Probe>, probes: seq<Probe>, tenants: seq<TenantId>, start: nat, cursor: nat, since: nat, from: nat, to: nat)
    requires probes == before + mine && from <= to && states <= states' && log <= log'
    requires Followed(states, log, id, fate, before, tenants, start, from)
    requires Trail(states', log', id, fate, mine, tenants, start, since, from, to) && cursor == Turn(start, |mine|, |tenants|)
    ensures Followed(states', log', id, fate, probes, tenants, cursor, to)
  {
    RotationsAreCyclic(before, mine, start, |tenants|);
    AllWitnessedStay(states, log, states', log', id, fate, before);
  }

  /** The polls from number `from` up to `to` asked for no shutdown, except the last one if the rotation stopped. */
  predicate Polled(shutdown: nat -> bool, from: nat, to: nat, stopped: bool) {
    from <= to && forall i :: from <= i < to ==> shutdown(i) == (stopped && i == to - 1)
  }

  lemma PolledMore(shutdown: nat -> bool, from: nat, to: nat)
    requires from < to && Polled(shutdown, from, to - 1, false)
    ensures Polled(shutdown, from, to, shutdown(to - 1))
  {
  }

  /** Some answered attempt among the `k` from number `n` on. */
  predicate SomeAnswered(fate: nat -> Fate, n: nat, k: nat) {
    exists i :: n <= i < n + k && fate(i).Answered?
  }

  // ---- The ingest worker ----

  /**
    `fate(i)` is how the i-th command this worker sends will go, `shutdown(i)`
    what its i-th poll will say, and `work(i)` whether the work before command i
    will succeed: the environment's choices, not the worker's. `probes` are those
    since the last rescan.
  */
  class IngestWorker {
    const cluster: Cluster
    const id: WorkerId
    const fate: nat -> Fate
    const shutdown: nat -> bool
    const work: nat -> bool
    var sent: nat
    var polls: nat
    var tenants: seq<TenantId>
    var cursor: nat
    var fatal: bool
    var processed: nat
    var failed: nat
    var duplicates: nat
    ghost var probes: seq<Probe>

    ghost predicate Valid()
      reads this, cluster
    {
      && cluster.Valid()
      && (cursor < |tenants| || cursor == 0)
      && Followed(cluster.states, cluster.log, id, fate, probes, tenants, cursor, sent)
    }

    constructor (cluster: Cluster, id: WorkerId, fate: nat -> Fate, shutdown: nat -> bool, work: nat -> bool)
      requires cluster.Valid()
      ensures Valid() && this.cluster == cluster && this.id == id
      ensures this.fate == fate && this.shutdown == shutdown && this.work == work
      ensures tenants == [] && probes == [] && sent == 0 && polls == 0 && !fatal
    {
      this.cluster, this.id, this.fate, this.shutdown, this.work := cluster, id, fate, shutdown, work;
      sent, polls, tenants, cursor, fatal, probes := 0, 0, [], 0, false, [];
      processed, failed, duplicates := 0, 0, 0;
    }

    /** The rest of the world moves; this worker stays where it is. */
    method Yield()
      requires cluster.Valid()
      modifies cluster
      ensures cluster.Valid() && cluster.Grown()
      ensures cluster.st.PcOf(id) == old(cluster.st).PcOf(id) && Persists(old(cluster.st).db, cluster.st.db)
    {
      cluster.Interfere(Some(id), None);
      cluster.Since(|old(cluster.log)|);
      OthersLeaveWorker(old(cluster.st), cluster.log[|old(cluster.log)|..], id);
      RunPersists(old(cluster.st), cluster.log[|old(cluster.log)|..]);
    }

    /**
      `claim_for_processing`: an error, a row that was not claimable, or a fresh
      token that now marks the row, which saves the very job that was taken.
    */
    method ClaimForProcessing(t: TenantId, p: Payload) returns (reply: Result<Option<Token>, ()>, ghost k: Token)
      requires cluster.Valid() && cluster.st.PcOf(id) == Moved(t, p)
      modifies cluster, this`sent
      ensures cluster.Valid() && cluster.Grown() && sent == old(sent) + 1
      ensures cluster.st.PcOf(id) == if reply.Err? then Infra(t, p) else if reply.value.None? then Acked(t, p) else Claimed(t, p, reply.value.value)
      ensures cluster.log == old(cluster.log) + [if fate(old(sent)).Unreached? then InfraError(id) else Claim(id, k, fate(old(sent)).ReplyLost?)]
      ensures k !in old(cluster.st.db).issued
      ensures reply == if !fate(old(sent)).Answered? then Err(())
                       else Ok(if old(cluster.st.db).Claimable(t, p.version) then Some(k) else None)
      ensures var claimed := !fate(old(sent)).Unreached? && old(cluster.st.db).Claimable(t, p.version);
              && cluster.st.db == (if claimed then old(cluster.st.db).ClaimRow(p, k) else old(cluster.st.db))
              && (claimed ==> var r := cluster.st.db.rows[p.version]; r.payload == Some(p) && r.token == Some(k) && r.status.Processing?)
    {
      var f := fate(sent);
      sent := sent + 1;
      HasFresh(cluster.st.db.issued);
      var token :| token !in cluster.st.db.issued;
      k := token;
      if f.Unreached? {
        cluster.Do(InfraError(id));
        return Err(()), k;
      }
      var claimable := cluster.st.db.Claimable(t, p.version);
      cluster.Do(Claim(id, token, f.ReplyLost?));
      reply := if f.ReplyLost? then Err(()) else Ok(if claimable then Some(token) else None);
    }

    /** The token-gated terminal write, committed with the chunks when the work succeeded. */
    method WriteTerminal(t: TenantId, p: Payload, k: Token, workDone: bool) returns (outcome: Outcome)
      requires cluster.Valid() && cluster.st.PcOf(id) == Claimed(t, p, k)
      modifies cluster, this`sent
      ensures cluster.Valid() && cluster.Grown() && sent == old(sent) + 1
      ensures cluster.st.PcOf(id) == if outcome.Failed? then Infra(t, p) else Acked(t, p)
      ensures cluster.log == old(cluster.log) + [if fate(old(sent)).Unreached? then InfraError(id) else Finish(id, workDone, fate(old(sent)).ReplyLost?)]
      ensures outcome == if !fate(old(sent)).Answered? then Failed
                         else if !old(cluster.st).db.Owns(t, p.version, k) then OwnershipLost
                         else if workDone then Processed else TerminalError
      ensures cluster.st.db == if !fate(old(sent)).Unreached? && old(cluster.st).db.Owns(t, p.version, k)
                               then old(cluster.st).db.FinishRow(p.version, k, workDone) else old(cluster.st).db
    {
      var f := fate(sent);
      sent := sent + 1;
      if f.Unreached? {
        cluster.Do(InfraError(id));
        return Failed;
      }
      var owned := cluster.st.db.Owns(t, p.version, k);
      cluster.Do(Finish(id, workDone, f.ReplyLost?));
      outcome := if f.ReplyLost? then Failed else if !owned then OwnershipLost
                 else if workDone then Processed else TerminalError;
    }

    /**
      The use case: claim the row, do the work, write the terminal state. The
      outcome is what the log says of this call's claim and terminal write.
    */
    method Execute(t: TenantId, p: Payload) returns (outcome: Outcome, ghost trace: Trace)
      requires cluster.Valid() && cluster.st.PcOf(id) == Moved(t, p)
      modifies cluster, this`sent
      ensures cluster.Valid() && cluster.Grown() && |old(cluster.log)| <= trace.claimAt
      ensures cluster.st.PcOf(id) == if outcome.Failed? then Infra(t, p) else Acked(t, p)
      ensures Truthful(outcome, p.version, old(cluster.st.db), cluster.st.db)
      ensures Decided(outcome, trace, cluster.states, cluster.log, id, fate, work, t, p.version, old(sent), sent)
    {
      var claim;
      ghost var k;
      ghost var at;
      claim, k, at := TryClaim(t, p);
      trace := Trace(k, at, at);
      if claim.Err? { return Failed, trace; }
      if claim.value.None? { return DuplicateSkipped, trace; }
      ghost var states, log := cluster.states, cluster.log;
      ghost var finishAt;
      outcome, finishAt := WorkOn(t, p, claim.value.value, old(cluster.st.db));
      trace := Trace(k, at, finishAt);
    }

    /** What the use case needs to know of its claim. */
    method TryClaim(t: TenantId, p: Payload) returns (claim: Result<Option<Token>, ()>, ghost k: Token, ghost at: nat)
      requires cluster.Valid() && cluster.st.PcOf(id) == Moved(t, p)
      modifies cluster, this`sent
      ensures cluster.Valid() && cluster.Grown() && sent == old(sent) + 1
      ensures cluster.st.PcOf(id) == if claim.Err? then Infra(t, p) else if claim.value.None? then Acked(t, p) else Claimed(t, p, claim.value.value)
      ensures |old(cluster.log)| <= at && at + 1 == |cluster.log|
      ensures cluster.log[at] == if fate(old(sent)).Unreached? then InfraError(id) else Claim(id, k, fate(old(sent)).ReplyLost?)
      ensures claim == if !fate(old(sent)).Answered? then Err(())
                       else Ok(if cluster.states[at].db.Claimable(t, p.version) then Some(k) else None)
      ensures k !in old(cluster.st.db).issued
    {
      Yield();
      at := |cluster.log|;
      claim, k := ClaimForProcessing(t, p);
    }

    /** The work under a claim whose token was not issued in `before` yet, and its terminal write. */
    method WorkOn(t: TenantId, p: Payload, k: Token, ghost before: Db) returns (outcome: Outcome, ghost at: nat)
      requires cluster.Valid() && cluster.st.PcOf(id) == Claimed(t, p, k) && k !in before.issued
      modifies cluster, this`sent
      ensures cluster.Valid() && cluster.Grown() && sent == old(sent) + 1
      ensures cluster.st.PcOf(id) == if outcome.Failed? then Infra(t, p) else Acked(t, p)
      ensures |old(cluster.log)| <= at && at + 1 == |cluster.log|
      ensures cluster.log[at] == if fate(old(sent)).Unreached? then InfraError(id) else Finish(id, work(old(sent)), fate(old(sent)).ReplyLost?)
      ensures outcome == if !fate(old(sent)).Answered? then Failed
                         else if !cluster.states[at].db.Owns(t, p.version, k) then OwnershipLost
                         else if work(old(sent)) then Processed else TerminalError
      ensures Truthful(outcome, p.version, before, cluster.st.db)
    {
      Yield();
      cluster.Safe();
      assert PcOk(cluster.st.db, cluster.st.PcOf(id));
      at := |cluster.log|;
      var workDone := work(sent);
      outcome := WriteTerminal(t, p, k, workDone);
      if outcome.TerminalError? {
        assert Spent(before, cluster.st.db, k);
      }
    }

    /** Run one job and close it: acknowledge it, hand it back, or stop the worker for good. */
    method Dispatch(t: TenantId, p: Payload) returns (outcome: Outcome, ghost trace: Trace, ghost decidedAt: nat)
      requires cluster.Valid() && cluster.st.PcOf(id) == Moved(t, p)
      modifies this`fatal, this`processed, this`failed, this`duplicates, this`sent, cluster
      ensures cluster.Valid() && cluster.Grown() && old(cluster.log) < cluster.log && old(sent) <= sent
      ensures cluster.st.PcOf(id).Idle?
      ensures var last := cluster.log[|cluster.log| - 1];
              if outcome.Failed? then (last == Transfer(id, false) && fatal == old(fatal)) || (last == GiveUp(id) && fatal)
              else last.LRem? && last.w == id && fatal == old(fatal)
      ensures processed == old(processed) + if outcome.Processed? then 1 else 0
      ensures failed == old(failed) + if outcome.Failed? || outcome.TerminalError? then 1 else 0
      ensures duplicates == old(duplicates) + if outcome.DuplicateSkipped? || outcome.OwnershipLost? then 1 else 0
      ensures Truthful(outcome, p.version, old(cluster.st.db), cluster.st.db)
      ensures |old(cluster.log)| <= trace.claimAt && decidedAt <= sent
      ensures Decided(outcome, trace, cluster.states, cluster.log, id, fate, work, t, p.version, old(sent), decidedAt)
    {
      outcome, trace := Execute(t, p);
      decidedAt := sent;
      Count(outcome);
      ghost var states, log := cluster.states, cluster.log;
      Close(t, p, outcome, old(cluster.st.db));
      StaysDecided(outcome, trace, states, log, cluster.states, cluster.log, id, fate, work, t, p.version, old(sent), decidedAt);
    }

    /** After a failure hand the job back, otherwise acknowledge it; what was reported of the row stays true. */
    method Close(t: TenantId, p: Payload, outcome: Outcome, ghost before: Db)
      requires cluster.Valid() && cluster.st.PcOf(id) == if outcome.Failed? then Infra(t, p) else Acked(t, p)
      requires Truthful(outcome, p.version, before, cluster.st.db)
      modifies this`fatal, this`sent, cluster
      ensures cluster.Valid() && cluster.Grown() && old(cluster.log) < cluster.log && old(sent) <= sent
      ensures cluster.st.PcOf(id).Idle?
      ensures var last := cluster.log[|cluster.log| - 1];
              if outcome.Failed? then (last == Transfer(id, false) && fatal == old(fatal)) || (last == GiveUp(id) && fatal)
              else last.LRem? && last.w == id && fatal == old(fatal)
      ensures Truthful(outcome, p.version, before, cluster.st.db)
    {
      ghost var mid := cluster.st.db;
      if outcome.Failed? {
        var _ := HandBack(t, p);
      } else {
        Acknowledge(t, p);
        StaysTruthful(outcome, p.version, before, mid, cluster.st.db);
      }
    }

    method Count(outcome: Outcome)
      modifies this`processed, this`failed, this`duplicates
      ensures processed == old(processed) + if outcome.Processed? then 1 else 0
      ensures failed == old(failed) + if outcome.Failed? || outcome.TerminalError? then 1 else 0
      ensures duplicates == old(duplicates) + if outcome.DuplicateSkipped? || outcome.OwnershipLost? then 1 else 0
    {
      match outcome {
        case Failed =>
          failed := failed + 1;
        case Processed =>
          processed := processed + 1;
        case TerminalError =>
          failed := failed + 1;
        case DuplicateSkipped =>
          duplicates := duplicates + 1;
        case OwnershipLost =>
          duplicates := duplicates + 1;
      }
    }

    /** LREM the entry; terminal rows stay as they are meanwhile. */
    method Acknowledge(t: TenantId, p: Payload)
      requires cluster.Valid() && cluster.st.PcOf(id) == Acked(t, p)
      modifies cluster, this`sent
      ensures cluster.Valid() && cluster.Grown() && old(cluster.log) < cluster.log && sent == old(sent) + 1
      ensures cluster.st.PcOf(id).Idle?
      ensures cluster.log[|cluster.log| - 1] == LRem(id, fate(old(sent)).Unreached?)
      ensures old(cluster.st.db).terminals <= cluster.st.db.terminals
      ensures var v, db := p.version, old(cluster.st.db);
              v in db.rows && db.rows[v].Terminal() ==> SameOutcome(db, cluster.st.db, v)
    {
      cluster.Safe();
      Yield();
      cluster.Do(LRem(id, fate(sent).Unreached?));
      sent := sent + 1;
      ghost var v, s := p.version, old(cluster.st);
      cluster.Since(|old(cluster.log)|);
      RunPersists(s, cluster.log[|old(cluster.log)|..]);
      if v in s.db.rows && s.db.rows[v].Terminal() {
        TerminalIsAbsorbing(s, cluster.log[|old(cluster.log)|..], v);
      }
    }

    /** Up to four attempts to transfer the entry back; after that, and only then, the worker is fatal. */
    method HandBack(t: TenantId, p: Payload) returns (handed: bool)
      requires cluster.Valid() && cluster.st.PcOf(id) == Infra(t, p)
      modifies this`fatal, this`sent, cluster
      ensures cluster.Valid() && cluster.Grown() && old(cluster.log) < cluster.log && old(sent) < sent <= old(sent) + 4
      ensures cluster.st.PcOf(id).Idle?
      ensures if SomeAnswered(fate, old(sent), 4) then handed && fate(sent - 1).Answered? else !handed && sent == old(sent) + 4
      ensures cluster.log[|cluster.log| - 1] == if handed then Transfer(id, false) else GiveUp(id)
      ensures fatal == (old(fatal) || !handed)
    {
      var n := sent;
      handed := false;
      while sent < n + 4 && !handed
        modifies cluster, this`sent
        invariant cluster.Valid() && cluster.Grown() && n <= sent <= n + 4
        invariant sent == n ==> !handed
        invariant !handed ==> cluster.st.PcOf(id) == Infra(t, p) && forall i :: n <= i < sent ==> !fate(i).Answered?
        invariant handed ==> (sent > n && fate(sent - 1).Answered? && cluster.st.PcOf(id).Idle?
                              && cluster.Grown() && old(cluster.log) < cluster.log && cluster.log[|cluster.log| - 1] == Transfer(id, false))
        decreases n + 4 - sent
      {
        var xfer := TryTransfer(t, p);
        handed := xfer >= 0;
      }
      if !handed {
        fatal := true;
        cluster.Do(GiveUp(id));
      }
    }

    /** One attempt: -1 without an answer, which leaves the job with the worker as far as it knows. */
    method TryTransfer(t: TenantId, p: Payload) returns (xfer: int)
      requires cluster.Valid() && cluster.st.PcOf(id) == Infra(t, p)
      modifies cluster, this`sent
      ensures cluster.Valid() && cluster.Grown() && sent == old(sent) + 1
      ensures xfer >= 0 <==> fate(old(sent)).Answered?
      ensures xfer < 0 ==> cluster.st.PcOf(id) == Infra(t, p)
      ensures !fate(old(sent)).Unreached? ==>
                cluster.Grown() && old(cluster.log) < cluster.log && cluster.log[|cluster.log| - 1] == Transfer(id, fate(old(sent)).ReplyLost?)
      ensures xfer >= 0 ==> cluster.st.PcOf(id).Idle?
    {
      Yield();
      xfer := -1;
      var f := fate(sent);
      sent := sent + 1;
      if !f.Unreached? {
        var present := p in cluster.st.redis.Proc(id, t);
        cluster.Do(Transfer(id, f.ReplyLost?));
        if f.Answered? { xfer := if present then 1 else 0; }
      }
    }

    /** LMOVE from the tenant's queue; no reply means no job, whether or not one moved. */
    method Take(t: TenantId, ghost index: nat) returns (reply: Option<Payload>, ghost probe: Probe)
      requires cluster.Valid() && cluster.st.PcOf(id).Idle?
      modifies cluster, this`sent
      ensures cluster.Valid() && cluster.Grown() && sent == old(sent) + 1
      ensures probe.index == index && probe.tenant == t && probe.number == old(sent) && probe.at >= |old(cluster.log)|
      ensures Sent(cluster.states, cluster.log, id, fate, probe)
      ensures reply == if probe.Hit() then Some(Oldest(QueueAt(cluster.states, probe))) else None
      ensures cluster.st.PcOf(id) == if reply.Some? then Moved(t, reply.value) else Idle
      ensures probe.Hit() ==> probe.at < |cluster.log|
    {
      Yield();
      var q := cluster.st.redis.Queue(t);
      var f := fate(sent);
      probe := Probe(index, t, sent, |cluster.log|, |cluster.log|, q != [], f.Answered?);
      sent := sent + 1;
      reply := None;
      if !f.Unreached? {
        cluster.Do(LMove(id, t, f.ReplyLost?));
        if q != [] && f.Answered? { reply := Some(q[|q| - 1]); }
      }
    }

    method Advance()
      requires cursor < |tenants|
      modifies this`cursor
      ensures cursor == Turn(old(cursor), 1, |tenants|)
    {
      var next := cursor + 1;
      if next < |tenants| {
        assert next % |tenants| == next;
      } else {
        assert next % |tenants| == 0;
      }
      cursor := next % |tenants|;
    }

    /** Probe one tenant and dispatch its job, if Redis hands one over. */
    method Serve(t: TenantId, ghost index: nat) returns (served: bool, ghost probe: Probe)
      requires cluster.Valid() && cluster.st.PcOf(id).Idle?
      modifies this`fatal, this`processed, this`failed, this`duplicates, this`sent, cluster
      ensures cluster.Valid() && cluster.st.PcOf(id).Idle? && cluster.Grown()
      ensures probe.index == index && probe.tenant == t && old(sent) == probe.number < sent && |old(cluster.log)| <= probe.at
      ensures Witnessed(cluster.states, cluster.log, id, fate, probe)
      ensures served <==> probe.Hit()
    {
      var payload;
      payload, probe := Take(t, index);
      served := payload.Some?;
      if served {
        ghost var states, taken := cluster.states, cluster.log;
        var _, _, _ := Dispatch(t, payload.value);
        ClosedProbe(states, taken, cluster.states, cluster.log, id, fate, probe);
        probe := probe.(closed := |cluster.log| - 1);
      }
    }

    /** The next tenant's turn, behind the probes `was` of this rotation. */
    method ProbeNext(ghost was: seq<Probe>, ghost start: nat, ghost since: nat, ghost from: nat)
      returns (served: bool, ghost mine: seq<Probe>)
      requires cluster.Valid() && cluster.st.PcOf(id).Idle? && cursor < |tenants| && |was| < |tenants|
      requires Trail(cluster.states, cluster.log, id, fate, was, tenants, start, since, from, sent) && NoHits(was)
      requires cursor == Turn(start, |was|, |tenants|) && from <= sent && since <= |cluster.log|
      modifies this`cursor, this`fatal, this`processed, this`failed, this`duplicates, this`sent, cluster
      ensures cluster.Valid() && cluster.st.PcOf(id).Idle? && cluster.Grown() && old(sent) < sent
      ensures |mine| == |was| + 1 && cursor == Turn(start, |mine|, |tenants|)
      ensures Trail(cluster.states, cluster.log, id, fate, mine, tenants, start, since, from, sent)
      ensures if served then OneRotation(mine, start, |tenants|, true, false) else NoHits(mine)
    {
      ghost var index := cursor;
      var company := tenants[cursor];
      Advance();
      ghost var probe;
      served, probe := Serve(company, index);
      mine := was + [probe];
      TrailMore(old(cluster.states), old(cluster.log), cluster.states, cluster.log, id, fate, was, probe, mine, tenants, start, since, from, sent);
      if served {
        HitEnds(was, probe, mine, start, |tenants|);
      }
    }

    /** The probes of one rotation over a list that is not empty. */
    method Rotate() returns (dispatched: bool, ghost stopped: bool, ghost mine: seq<Probe>)
      requires cluster.Valid() && cluster.st.PcOf(id).Idle? && cursor < |tenants|
      modifies this`cursor, this`fatal, this`processed, this`failed, this`duplicates, this`sent, this`polls, cluster
      ensures cluster.Valid() && cluster.st.PcOf(id).Idle? && cluster.Grown() && old(sent) <= sent
      ensures Trail(cluster.states, cluster.log, id, fate, mine, tenants, old(cursor), |old(cluster.log)|, old(sent), sent)
      ensures OneRotation(mine, old(cursor), |tenants|, dispatched, stopped)
      ensures polls == old(polls) + |mine| + if stopped then 1 else 0
      ensures Polled(shutdown, old(polls), polls, stopped)
      ensures cursor == Turn(old(cursor), |mine|, |tenants|)
    {
      dispatched, stopped, mine := false, false, [];
      var start := cursor;
      var first := true;
      while first || cursor != start
        modifies this`cursor, this`fatal, this`processed, this`failed, this`duplicates, this`sent, this`polls, cluster
        invariant cluster.Valid() && cluster.st.PcOf(id).Idle? && cluster.Grown() && old(sent) <= sent
        invariant Trail(cluster.states, cluster.log, id, fate, mine, tenants, start, |old(cluster.log)|, old(sent), sent) && NoHits(mine)
        invariant cursor == Turn(start, |mine|, |tenants|)
        invariant first <==> mine == []
        invariant polls == old(polls) + |mine| && Polled(shutdown, old(polls), polls, false)
        decreases |tenants| - |mine|
      {
        polls := polls + 1;
        PolledMore(shutdown, old(polls), polls);
        if shutdown(polls - 1) {
          stopped := true;
          MissesEnd(mine, start, |tenants|, true);
          return;
        }
        first := false;
        dispatched, mine := ProbeNext(mine, start, |old(cluster.log)|, old(sent));
        if dispatched { return; }
      }
      MissesEnd(mine, start, |tenants|, false);
    }

    /**
      One rotation: probe tenants from the cursor on until a job is dispatched.
      Unless a poll asks for a shutdown, it reports no work only after probing
      each tenant once.
    */
    method TryOneRotation() returns (dispatched: bool, ghost stopped: bool, ghost mine: seq<Probe>)
      requires Valid() && cluster.st.PcOf(id).Idle?
      modifies this`cursor, this`fatal, this`processed, this`failed, this`duplicates, this`sent, this`polls, this`probes, cluster
      ensures Valid() && cluster.st.PcOf(id).Idle? && cluster.Grown()
      ensures probes == old(probes) + mine && NotBefore(mine, |old(cluster.log)|)
      ensures OneRotation(mine, old(cursor), |tenants|, dispatched, stopped) && InOrder(mine, tenants, old(sent), sent)
      ensures polls == old(polls) + |mine| + if stopped then 1 else 0
      ensures Polled(shutdown, old(polls), polls, stopped)
      ensures cursor == Turn(old(cursor), |mine|, |tenants|)
    {
      if tenants == [] {
        return false, false, [];
      }
      dispatched, stopped, mine := Rotate();
      ghost var all := probes + mine;
      FollowedMore(old(cluster.states), old(cluster.log), cluster.states, cluster.log, id, fate,
                   probes, mine, all, tenants, old(cursor), cursor, |old(cluster.log)|, old(sent), sent);
      probes := all;
    }

    method ReadTenants(keys: seq<Option<TenantId>>) returns (found: seq<TenantId>)
      ensures Sorted(found) && multiset(found) == WellFormed(keys)
    {
      found := [];
      for i := 0 to |keys|
        invariant Sorted(found) && multiset(found) == WellFormed(keys[..i])
      {
        assert keys[..i + 1][..i] == keys[..i];
        if keys[i].Some? {
          InsertKeepsSorted(found, keys[i].value);
          found := InsertTenant(found, keys[i].value);
        }
      }
      assert keys[..|keys|] == keys;
    }

    /** Read the tenants off the scanned keys, in order; the cursor stays inside the list. */
    method Rescan(keys: seq<Option<TenantId>>)
      requires Valid()
      modifies this`tenants, this`cursor, this`probes
      ensures Valid() && probes == []
      ensures Sorted(tenants) && multiset(tenants) == WellFormed(keys)
      ensures cursor == if tenants == [] then 0 else old(cursor) % |tenants|
    {
      var found := ReadTenants(keys);
      tenants := found;
      cursor := cursor % (if |found| == 0 then 1 else |found|);
      probes := [];
    }

    /**
      Fairness between rescans: among the probes of any stretch with n
      dispatches over n tenants, the first n hold one that took a job of the
      given tenant off its queue and closed it, if that queue had a job and
      Redis answered whenever the stretch came to it.
    */
    lemma WaitingTenantIsServed(from: nat, to: nat, index: nat) returns (i: nat)
      requires Valid() && from <= to <= |probes| && index < |tenants|
      requires Hits(probes[from..to]) >= |tenants|
      requires forall i :: from <= i < to && probes[i].index == index ==>
                 QueueAt(cluster.states, probes[i]) != [] && fate(probes[i].number).Answered?
      ensures from <= i < to && i < from + |tenants|
      ensures probes[i].tenant == tenants[index]
      ensures var p := probes[i];
              && p.at < p.closed < |cluster.log|
              && QueueAt(cluster.states, p) != []
              && cluster.log[p.at] == LMove(id, tenants[index], false)
              && Closes(cluster.log[p.closed], id)
    {
      i := ServedInStretch(cluster.states, cluster.log, id, fate, probes, tenants, from, to, index);
      assert Witnessed(cluster.states, cluster.log, id, fate, probes[i]);
    }
  }

  lemma ServedInStretch(
    states: seq<State>, log: seq<Action>, id: WorkerId, fate: nat -> Fate, probes: seq<Probe>, tenants: seq<TenantId>,
    from: nat, to: nat, index: nat)
    returns (i: nat)
    requires Cyclic(probes, |tenants|) && AllWitnessed(states, log, id, fate, probes) && from <= to <= |probes|
    requires index < |tenants| && Hits(probes[from..to]) >= |tenants|
    requires forall i :: from <= i < to && probes[i].index == index ==>
               probes[i].at < |states| && QueueAt(states, probes[i]) != [] && fate(probes[i].number).Answered?
    ensures from <= i < to && i < from + |tenants| && probes[i].index == index && probes[i].Hit()
  {
    forall j | from <= j < to && probes[j].index == index ensures probes[j].waiting && probes[j].replied {
      assert Witnessed(states, log, id, fate, probes[j]);
    }
    i := HitInStretch(probes, |tenants|, from, to, index);
  }

  lemma HitInStretch(probes: seq<Probe>, n: nat, from: nat, to: nat, index: nat) returns (i: nat)
    requires Cyclic(probes, n) && from <= to <= |probes| && index < n && Hits(probes[from..to]) >= n
    requires forall i :: from <= i < to && probes[i].index == index ==> probes[i].waiting && probes[i].replied
    ensures from <= i < to && i < from + n && probes[i].index == index && probes[i].Hit()
  {
    var stretch := probes[from..to];
    SliceIsCyclic(probes, n, from, to);
    EveryWaitingTenantIsServed(stretch, n, index);
    var j :| 0 <= j < n && j < |stretch| && stretch[j].index == index && stretch[j].Hit();
    i := from + j;
  }

  lemma SliceIsCyclic(probes: seq<Probe>, n: nat, from: nat, to: nat)
    requires Cyclic(probes, n) && from <= to <= |probes|
    ensures Cyclic(probes[from..to], n)
  {
    var stretch := probes[from..to];
    forall j | 0 < j < |stretch| ensures stretch[j].index == Turn(stretch[j - 1].index, 1, n) {
      assert stretch[j] == probes[from + j] && stretch[j - 1] == probes[from + j - 1];
    }
  }

  // ---- The tenant list ----

  function Oldest(q: seq<Payload>): Payload
    requires q != []
  {
    q[|q| - 1]
  }

  predicate Sorted(ts: seq<TenantId>) {
    forall i, j :: 0 <= i < j < |ts| ==> ts[i] <= ts[j]
  }

  /** The tenants the keys name; a malformed key names none. */
  function WellFormed(keys: seq<Option<TenantId>>): multiset<TenantId> {
    if keys == [] then multiset{}
    else
      var before, last := WellFormed(keys[..|keys| - 1]), keys[|keys| - 1];
      if last.Some? then before + multiset{last.value} else before
  }

  function InsertTenant(ts: seq<TenantId>, t: TenantId): seq<TenantId> {
    if ts == [] || t <= ts[0] then [t] + ts else [ts[0]] + InsertTenant(ts[1..], t)
  }

  lemma {:induction false} InsertAdds(ts: seq<TenantId>, t: TenantId)
    ensures multiset(InsertTenant(ts, t)) == multiset(ts) + multiset{t}
  {
    if ts != [] && t > ts[0] {
      InsertAdds(ts[1..], t);
      assert ts == [ts[0]] + ts[1..];
    }
  }

  lemma {:induction false} InsertKeepsSorted(ts: seq<TenantId>, t: TenantId)
    requires Sorted(ts)
    ensures Sorted(InsertTenant(ts, t)) && multiset(InsertTenant(ts, t)) == multiset(ts) + multiset{t}
  {
    InsertAdds(ts, t);
    if ts != [] && t > ts[0] {
      InsertKeepsSorted(ts[1..], t);
      FirstIsLeast(ts, t);
    }
  }

  lemma FirstIsLeast(ts: seq<TenantId>, t: TenantId)
    requires Sorted(ts) && ts != [] && t > ts[0]
    ensures forall i :: 0 <= i < |InsertTenant(ts[1..], t)| ==> ts[0] <= InsertTenant(ts[1..], t)[i]
  {
    InsertAdds(ts[1..], t);
    var more := InsertTenant(ts[1..], t);
    forall i | 0 <= i < |more| ensures ts[0] <= more[i] {
      assert more[i] in multiset(more);
    }
  }

  /** The index reached from `start` after `i` advances of the cursor over `n` tenants. */
  function Turn(start: nat, i: nat, n: nat): nat
    requires i <= n && (start < n || start == 0)
  {
    if n == 0 then 0 else if start + i < n then start + i else start + i - n
  }

  // ---- Fairness between rescans ----

  /** Probes that follow the cursor over `n` tenants, as rotations leave them behind. */
  ghost predicate Cyclic(probes: seq<Probe>, n: nat) {
    && (forall i :: 0 <= i < |probes| ==> probes[i].index < n)
    && (forall i :: 0 < i < |probes| ==> probes[i].index == Turn(probes[i - 1].index, 1, n))
  }

  function Hits(probes: seq<Probe>): nat {
    if probes == [] then 0 else (if probes[0].Hit() then 1 else 0) + Hits(probes[1..])
  }

  lemma {:induction false} HitsAtMostLength(probes: seq<Probe>)
    ensures Hits(probes) <= |probes|
  {
    if probes != [] { HitsAtMostLength(probes[1..]); }
  }

  lemma {:induction false} ProbeAfter(probes: seq<Probe>, n: nat, i: nat)
    requires Cyclic(probes, n) && i < |probes| && i < n
    ensures probes[i].index == Turn(probes[0].index, i, n)
  {
    if i > 0 { ProbeAfter(probes, n, i - 1); }
  }

  /** A rotation that starts where the last probe left the cursor keeps the log cyclic. */
  lemma RotationsAreCyclic(before: seq<Probe>, mine: seq<Probe>, start: nat, n: nat)
    requires Cyclic(before, n) && start < n && |mine| <= n
    requires before != [] ==> start == Turn(before[|before| - 1].index, 1, n)
    requires forall i :: 0 <= i < |mine| ==> mine[i].index == Turn(start, i, n)
    ensures Cyclic(before + mine, n)
    ensures mine != [] ==> Turn(start, |mine|, n) == Turn((before + mine)[|before + mine| - 1].index, 1, n)
  {
    var all := before + mine;
    forall i | 0 < i < |all| ensures all[i].index == Turn(all[i - 1].index, 1, n) {
      if i > |before| {
        assert all[i] == mine[i - |before|] && all[i - 1] == mine[i - |before| - 1];
      }
    }
  }

  /**
    Any stretch of probes with `n` dispatches over `n` tenants dispatches every
    tenant whose queue had a job at each of its probes.
  */
  lemma EveryWaitingTenantIsServed(probes: seq<Probe>, n: nat, index: nat)
    requires Cyclic(probes, n) && index < n && Hits(probes) >= n
    requires forall i :: 0 <= i < |probes| && probes[i].index == index ==> probes[i].waiting && probes[i].replied
    ensures exists i :: 0 <= i < n && i < |probes| && probes[i].index == index && probes[i].Hit()
  {
    HitsAtMostLength(probes);
    var first := probes[0].index;
    var i := if first <= index then index - first else index + n - first;
    ProbeAfter(probes, n, i);
    assert probes[i].index == index;
  }
}
