/**
  The scheduler's recovery cycle: hand back the processing lists of dead
  workers, sweep stuck rows in one transaction, then push what the sweep
  decided to requeue.
*/
module PollingFallback {
  import opened Wrappers
  import opened Collections
  import opened IngestProtocol
  import opened IngestSafety
  import opened IngestWorkers

  /** A pending row was written at or after `t0`; every statement keeps this once the clock has reached `t0`. */
  ghost predicate FreshSince(db: Db, v: VersionId, t0: int) {
    v in db.rows && db.rows[v].status.Pending? ==> db.rows[v].updatedAt >= t0
  }

  lemma ExecKeepsFresh(db: Db, st: Statement, v: VersionId, t0: int)
    requires Enabled(db, st) && FreshSince(db, v, t0) && db.now >= t0
    ensures FreshSince(Exec(db, st), v, t0) && Exec(db, st).now >= db.now
    ensures Exec(db, st).stuckAfter == db.stuckAfter
  {
  }

  lemma {:induction false} RunKeepsFresh(s: State, acts: seq<Action>, v: VersionId, t0: int)
    requires FreshSince(s.db, v, t0) && s.db.now >= t0
    ensures FreshSince(Run(s, acts).db, v, t0) && Run(s, acts).db.now >= s.db.now
    ensures Run(s, acts).db.stuckAfter == s.db.stuckAfter
  {
    if acts != [] {
      var mid, a := Run(s, acts[..|acts| - 1]), acts[|acts| - 1];
      RunKeepsFresh(s, acts[..|acts| - 1], v, t0);
      StepExecutes(mid, a);
      ExecKeepsFresh(mid.db, StatementOf(mid, a), v, t0);
    }
  }

  /** The state after a stretch of the log is reached from the state before it. */
  lemma RunBetween(origin: State, log: seq<Action>, states: seq<State>, i: nat, j: nat)
    requires Recorded(origin, log, states) && i <= j <= |log|
    ensures states[j] == Run(states[i], log[i..j])
  {
    assert log[..j] == log[..i] + log[i..j];
    RunParts(origin, log[..i], log[i..j], log[..j]);
    assert states[j] == Run(origin, log[..j]);
  }

  lemma RunParts(origin: State, xs: seq<Action>, ys: seq<Action>, all: seq<Action>)
    requires all == xs + ys
    ensures Run(origin, all) == Run(Run(origin, xs), ys)
  {
    RunConcat(origin, xs, ys);
  }

  lemma NextState(origin: State, log: seq<Action>, states: seq<State>, i: nat)
    requires Recorded(origin, log, states) && i < |log|
    ensures states[i + 1] == Step(states[i], log[i])
  {
    RunBetween(origin, log, states, i, i + 1);
    OneStep(states[i], log[i], log[i..i + 1]);
  }

  lemma OneStep(s: State, a: Action, acts: seq<Action>)
    requires acts == [a]
    ensures Run(s, acts) == Step(s, a)
  {
    RunOne(s, a);
  }

  lemma ClockBetween(origin: State, log: seq<Action>, states: seq<State>, i: nat, j: nat)
    requires Recorded(origin, log, states) && i <= j <= |log|
    ensures states[i].db.now <= states[j].db.now && states[i].db.stuckAfter == states[j].db.stuckAfter
  {
    RunBetween(origin, log, states, i, j);
    ClockAdvances(states[i], log[i..j]);
  }

  lemma FreshBetween(origin: State, log: seq<Action>, states: seq<State>, i: nat, j: nat, v: VersionId, t0: int)
    requires Recorded(origin, log, states) && i <= j <= |log|
    requires FreshSince(states[i].db, v, t0) && states[i].db.now >= t0
    ensures FreshSince(states[j].db, v, t0)
  {
    RunBetween(origin, log, states, i, j);
    RunKeepsFresh(states[i], log[i..j], v, t0);
  }

  lemma PersistsBetween(origin: State, log: seq<Action>, states: seq<State>, i: nat, j: nat)
    requires Recorded(origin, log, states) && i <= j <= |log|
    ensures Persists(states[i].db, states[j].db)
  {
    RunBetween(origin, log, states, i, j);
    RunPersists(states[i], log[i..j]);
  }

  lemma ClockAdvances(s: State, acts: seq<Action>)
    ensures Run(s, acts).db.now >= s.db.now && Run(s, acts).db.stuckAfter == s.db.stuckAfter
  {
    var v: VersionId := 0;
    var low := if v in s.db.rows && s.db.rows[v].updatedAt < s.db.now then s.db.rows[v].updatedAt else s.db.now;
    RunKeepsFresh(s, acts, v, low);
  }

  // ---- What a scheduler did itself ----

  /** The scheduler's own outstanding pushes are the same. */
  ghost predicate SamePushes(id: SchedulerId, before: multiset<Push>, after: multiset<Push>) {
    forall q: Push :: q.sched == id ==> after[q] == before[q]
  }

  /** The sweeps and pushes of one scheduler, in the order of the log. */
  ghost function Mine(id: SchedulerId, log: seq<Action>): seq<Action> {
    if log == [] then []
    else
      var before, a := Mine(id, log[..|log| - 1]), log[|log| - 1];
      if a.Scheduler() == Some(id) then before + [a] else before
  }

  lemma MineMore(id: SchedulerId, log: seq<Action>, a: Action)
    ensures Mine(id, log + [a]) == if a.Scheduler() == Some(id) then Mine(id, log) + [a] else Mine(id, log)
  {
    assert (log + [a])[..|log|] == log;
  }

  lemma {:induction false} OthersAreNotMine(id: SchedulerId, log: seq<Action>, more: seq<Action>)
    requires OthersOnly(more, None, Some(id))
    ensures Mine(id, log + more) == Mine(id, log)
  {
    if more == [] {
      assert log + more == log;
    } else {
      var init, a := more[..|more| - 1], more[|more| - 1];
      OthersAreNotMine(id, log, init);
      assert log + more == log + init + [a];
      MineMore(id, log + init, a);
      assert a.Scheduler() != Some(id);
    }
  }

  lemma {:induction false} AllMine(id: SchedulerId, log: seq<Action>, acts: seq<Action>)
    requires forall i :: 0 <= i < |acts| ==> acts[i].Scheduler() == Some(id)
    ensures Mine(id, log + acts) == Mine(id, log) + acts
  {
    if acts == [] {
      assert log + acts == log;
    } else {
      var init, a := acts[..|acts| - 1], acts[|acts| - 1];
      AllMine(id, log, init);
      assert log + acts == log + init + [a];
      MineMore(id, log + init, a);
    }
  }

  // ---- What the reaper did ----

  /** Where the touch and the transfer of one entry are in the log, and whether the transfer moved it. */
  datatype Handling = Handling(touched: nat, reaped: nat, moved: bool)

  /** The number of the first command for the j-th entry of a list, if the list starts at number `n`. */
  ghost function TouchNumber(fate: nat -> Fate, n: nat, j: nat): nat {
    if j == 0 then n
    else
      var before := TouchNumber(fate, n, j - 1);
      if fate(before).Answered? then before + 2 else before + 1
  }

  /**
    An entry whose touch was answered is touched first and transferred after
    that, unless Redis could not be reached; any other entry stays where it is.
  */
  ghost predicate Attended(
    states: seq<State>, log: seq<Action>, fate: nat -> Fate, key: ProcKey, p: Payload, n: nat, from: nat, h: Handling)
  {
    if !fate(n).Answered? then !h.moved
    else
      && from <= h.touched < |log| && log[h.touched] == Touch(key.tenant, p.version)
      && if fate(n + 1).Unreached? then !h.moved
         else
           && h.touched < h.reaped < |log| && h.reaped < |states|
           && log[h.reaped] == Reap(key.worker, key.tenant, p)
           && h.moved == (fate(n + 1).Answered? && p in states[h.reaped].redis.Proc(key.worker, key.tenant))
  }

  ghost predicate AllAttended(
    states: seq<State>, log: seq<Action>, fate: nat -> Fate, key: ProcKey, list: seq<Payload>, n: nat, from: nat,
    handlings: seq<Handling>)
  {
    && |handlings| <= |list|
    && forall j {:trigger Attended(states, log, fate, key, list[j], TouchNumber(fate, n, j), from, handlings[j])} ::
         0 <= j < |handlings| ==> Attended(states, log, fate, key, list[j], TouchNumber(fate, n, j), from, handlings[j])
  }

  lemma AttendedStay(
    states: seq<State>, log: seq<Action>, states': seq<State>, log': seq<Action>, fate: nat -> Fate, key: ProcKey,
    list: seq<Payload>, n: nat, from: nat, handlings: seq<Handling>)
    requires AllAttended(states, log, fate, key, list, n, from, handlings) && states <= states' && log <= log'
    ensures AllAttended(states', log', fate, key, list, n, from, handlings)
  {
    forall j | 0 <= j < |handlings|
      ensures Attended(states', log', fate, key, list[j], TouchNumber(fate, n, j), from, handlings[j])
    {
      assert Attended(states, log, fate, key, list[j], TouchNumber(fate, n, j), from, handlings[j]);
    }
  }

  lemma AttendedMore(
    states: seq<State>, log: seq<Action>, states': seq<State>, log': seq<Action>, fate: nat -> Fate, key: ProcKey,
    list: seq<Payload>, n: nat, from: nat, handlings: seq<Handling>, h: Handling, handlings': seq<Handling>)
    requires AllAttended(states, log, fate, key, list, n, from, handlings) && states <= states' && log <= log'
    requires |handlings| < |list| && handlings' == handlings + [h] && from <= |log|
    requires Attended(states', log', fate, key, list[|handlings|], TouchNumber(fate, n, |handlings|), |log|, h)
    ensures AllAttended(states', log', fate, key, list, n, from, handlings')
  {
    AttendedStay(states, log, states', log', fate, key, list, n, from, handlings);
    forall j | 0 <= j < |handlings'|
      ensures Attended(states', log', fate, key, list[j], TouchNumber(fate, n, j), from, handlings'[j])
    {
      if j < |handlings| {
        assert Attended(states', log', fate, key, list[j], TouchNumber(fate, n, j), from, handlings[j]);
      } else {
        AttendedSince(states', log', fate, key, list[j], TouchNumber(fate, n, j), from, |log|, h);
      }
    }
  }

  lemma AttendedSince(
    states: seq<State>, log: seq<Action>, fate: nat -> Fate, key: ProcKey, p: Payload, n: nat, from: nat, later: nat, h: Handling)
    requires Attended(states, log, fate, key, p, n, later, h) && from <= later
    ensures Attended(states, log, fate, key, p, n, from, h)
  {
  }

  /**
    What became of one processing list: the heartbeat was asked for with command
    `number`, in the state `states[at]`, and the list was read in `states[read]`.
  */
  datatype Visit = Visit(
    key: ProcKey, number: nat, next: nat, at: nat, read: nat, list: seq<Payload>, handlings: seq<Handling>)

  /**
    Only a heartbeat that is known to be missing opens a list; then each of its
    entries is attended to, and otherwise the list is left alone.
  */
  ghost predicate Visited(states: seq<State>, log: seq<Action>, fate: nat -> Fate, from: nat, v: Visit) {
    && from <= v.at < |states|
    && if fate(v.number).Answered? && v.key.worker !in states[v.at].redis.beating then
         && v.at <= v.read < |states|
         && v.list == (if fate(v.number + 1).Answered? then states[v.read].redis.Proc(v.key.worker, v.key.tenant) else [])
         && |v.handlings| == |v.list| && v.next == TouchNumber(fate, v.number + 2, |v.list|)
         && AllAttended(states, log, fate, v.key, v.list, v.number + 2, v.read, v.handlings)
       else
         v.list == [] && v.handlings == [] && v.next == v.number + 1
  }

  lemma ListRead(states: seq<State>, log: seq<Action>, fate: nat -> Fate, from: nat, v: Visit)
    requires from <= v.at <= v.read < |states|
    requires fate(v.number).Answered? && v.key.worker !in states[v.at].redis.beating
    requires v.list == if fate(v.number + 1).Answered? then states[v.read].redis.Proc(v.key.worker, v.key.tenant) else []
    requires |v.handlings| == |v.list| && v.next == TouchNumber(fate, v.number + 2, |v.list|)
    requires AllAttended(states, log, fate, v.key, v.list, v.number + 2, v.read, v.handlings)
    ensures Visited(states, log, fate, from, v)
  {
  }

  lemma ListLeft(states: seq<State>, log: seq<Action>, fate: nat -> Fate, from: nat, v: Visit)
    requires from <= v.at < |states|
    requires !(fate(v.number).Answered? && v.key.worker !in states[v.at].redis.beating)
    requires v.list == [] && v.handlings == [] && v.next == v.number + 1
    ensures Visited(states, log, fate, from, v)
  {
  }

  function NextNumber(visits: seq<Visit>, n: nat): nat {
    if visits == [] then n else visits[|visits| - 1].next
  }

  /** The lists of `keys` were visited one after another, from command number `n` on. */
  ghost predicate AllVisited(
    states: seq<State>, log: seq<Action>, fate: nat -> Fate, from: nat, keys: seq<ProcKey>, visits: seq<Visit>, n: nat)
  {
    && |visits| <= |keys|
    && forall i {:trigger Visited(states, log, fate, from, visits[i])} :: 0 <= i < |visits| ==>
         && visits[i].key == keys[i] && visits[i].number == NextNumber(visits[..i], n)
         && Visited(states, log, fate, from, visits[i])
  }

  lemma VisitStays(states: seq<State>, log: seq<Action>, states': seq<State>, log': seq<Action>, fate: nat -> Fate, from: nat, v: Visit)
    requires Visited(states, log, fate, from, v) && states <= states' && log <= log'
    ensures Visited(states', log', fate, from, v)
  {
    if fate(v.number).Answered? && v.key.worker !in states[v.at].redis.beating {
      AttendedStay(states, log, states', log', fate, v.key, v.list, v.number + 2, v.read, v.handlings);
    }
  }

  lemma VisitsStay(
    states: seq<State>, log: seq<Action>, states': seq<State>, log': seq<Action>, fate: nat -> Fate, from: nat,
    keys: seq<ProcKey>, visits: seq<Visit>, n: nat)
    requires AllVisited(states, log, fate, from, keys, visits, n) && states <= states' && log <= log'
    ensures AllVisited(states', log', fate, from, keys, visits, n)
  {
    forall i | 0 <= i < |visits|
      ensures visits[i].key == keys[i] && visits[i].number == NextNumber(visits[..i], n)
      ensures Visited(states', log', fate, from, visits[i])
    {
      assert Visited(states, log, fate, from, visits[i]);
      VisitStays(states, log, states', log', fate, from, visits[i]);
    }
  }

  lemma VisitsStand(
    states: seq<State>, log: seq<Action>, states': seq<State>, log': seq<Action>, at: nat, fate: nat -> Fate, from: nat,
    keys: seq<ProcKey>, visits: seq<Visit>, n: nat)
    requires AllVisited(states, log, fate, from, keys, visits, n) && states <= states' && log <= log'
    requires |states| == |log| + 1 && |log| <= at <= |log'| && at < |states'|
    ensures AllVisited(states'[..at + 1], log'[..at], fate, from, keys, visits, n)
  {
    VisitsStay(states, log, states'[..at + 1], log'[..at], fate, from, keys, visits, n);
  }

  lemma VisitedMore(
    states: seq<State>, log: seq<Action>, states': seq<State>, log': seq<Action>, fate: nat -> Fate, from: nat,
    keys: seq<ProcKey>, visits: seq<Visit>, v: Visit, visits': seq<Visit>, n: nat)
    requires AllVisited(states, log, fate, from, keys, visits, n) && states <= states' && log <= log'
    requires |visits| < |keys| && visits' == visits + [v] && v.key == keys[|visits|] && v.number == NextNumber(visits, n)
    requires Visited(states', log', fate, from, v)
    ensures AllVisited(states', log', fate, from, keys, visits', n)
  {
    VisitsStay(states, log, states', log', fate, from, keys, visits, n);
    forall i | 0 <= i < |visits'|
      ensures visits'[i].key == keys[i] && visits'[i].number == NextNumber(visits'[..i], n)
      ensures Visited(states', log', fate, from, visits'[i])
    {
      if i < |visits| {
        assert Visited(states', log', fate, from, visits[i]);
        assert visits'[..i] == visits[..i];
      } else {
        assert visits'[..i] == visits;
      }
    }
  }

  /** The versions on the list whose touch was not answered. */
  ghost function Unanswered(fate: nat -> Fate, list: seq<Payload>, n: nat): set<VersionId> {
    if list == [] then {}
    else
      var i := |list| - 1;
      Unanswered(fate, list[..i], n) + if fate(TouchNumber(fate, n, i)).Answered? then {} else {list[i].version}
  }

  lemma UnansweredMore(fate: nat -> Fate, list: seq<Payload>, n: nat, i: nat)
    requires i < |list|
    ensures Unanswered(fate, list[..i + 1], n) ==
      Unanswered(fate, list[..i], n) + if fate(TouchNumber(fate, n, i)).Answered? then {} else {list[i].version}
  {
    assert list[..i + 1][..i] == list[..i];
  }

  lemma {:induction false} UnansweredHas(fate: nat -> Fate, list: seq<Payload>, n: nat, j: nat)
    requires j < |list| && !fate(TouchNumber(fate, n, j)).Answered?
    ensures list[j].version in Unanswered(fate, list, n)
  {
    if j < |list| - 1 {
      UnansweredHas(fate, list[..|list| - 1], n, j);
    }
  }

  /** The versions whose touch was not answered on any list. */
  ghost function Deferred(fate: nat -> Fate, visits: seq<Visit>): set<VersionId> {
    if visits == [] then {}
    else
      var v := visits[|visits| - 1];
      Deferred(fate, visits[..|visits| - 1]) + Unanswered(fate, v.list, v.number + 2)
  }

  lemma {:induction false} DeferredHas(fate: nat -> Fate, visits: seq<Visit>, i: nat)
    requires i < |visits|
    ensures Unanswered(fate, visits[i].list, visits[i].number + 2) <= Deferred(fate, visits)
  {
    if i < |visits| - 1 {
      DeferredHas(fate, visits[..|visits| - 1], i);
    }
  }

  ghost function MovedCount(handlings: seq<Handling>): nat {
    if handlings == [] then 0 else MovedCount(handlings[..|handlings| - 1]) + if handlings[|handlings| - 1].moved then 1 else 0
  }

  lemma CountMore(was: seq<Handling>, h: Handling, handlings: seq<Handling>)
    requires handlings == was + [h]
    ensures MovedCount(handlings) == MovedCount(was) + if h.moved then 1 else 0
  {
    assert handlings[..|was|] == was;
  }

  /** How many entries the reaper knows it moved. */
  ghost function Transferred(visits: seq<Visit>): nat {
    if visits == [] then 0 else Transferred(visits[..|visits| - 1]) + MovedCount(visits[|visits| - 1].handlings)
  }

  lemma VisitCounts(fate: nat -> Fate, was: seq<Visit>, v: Visit, visits: seq<Visit>)
    requires visits == was + [v]
    ensures Transferred(visits) == Transferred(was) + MovedCount(v.handlings)
    ensures Deferred(fate, visits) == Deferred(fate, was) + Unanswered(fate, v.list, v.number + 2)
  {
    assert visits[..|was|] == was;
  }

  // ---- What the sweep did ----

  /** The rows in `ids` went through the sweep, every other row is untouched. */
  ghost predicate SweptExactly(db: Db, db': Db, ids: set<VersionId>) {
    && ids <= db.rows.Keys && db'.rows.Keys == db.rows.Keys
    && (forall v :: v in db.rows ==> db'.rows[v] == if v in ids then db.Swept(v).(updatedAt := db.now) else db.rows[v])
    && db'.now == db.now && db'.stuckAfter == db.stuckAfter && db'.maxResume == db.maxResume
  }

  lemma SweptOneMore(db: Db, mid: Db, db': Db, ids: set<VersionId>, v: VersionId)
    requires SweptExactly(db, mid, ids) && v in db.rows && v !in ids && db' == mid.SweepRow(v)
    ensures SweptExactly(db, db', ids + {v})
  {
    assert mid.rows[v] == db.rows[v] && mid.Swept(v) == db.Swept(v);
    assert db'.rows == mid.rows[v := mid.Swept(v).(updatedAt := mid.now)];
    assert db'.rows.Keys == mid.rows.Keys;
  }

  /** The rows a sweep takes: every stuck one, except pending ones the reaper deferred. */
  predicate Due(db: Db, deferred: set<VersionId>, v: VersionId) {
    db.Sweepable(v) && (db.rows[v].status.Pending? ==> v !in deferred)
  }

  ghost function AllDue(db: Db, deferred: set<VersionId>): set<VersionId> {
    set v | v in db.rows && Due(db, deferred, v)
  }

  function StuckPending(db: Db, deferred: set<VersionId>): set<VersionId> {
    set v | v in db.rows && db.Sweepable(v) && db.rows[v].status.Pending? && v !in deferred
  }

  function StuckProcessing(db: Db): set<VersionId> {
    set v | v in db.rows && db.Sweepable(v) && db.rows[v].status.Processing?
  }

  lemma DueIsStuck(db: Db, deferred: set<VersionId>)
    ensures AllDue(db, deferred) == StuckPending(db, deferred) + StuckProcessing(db)
    ensures StuckPending(db, deferred) !! StuckProcessing(db)
  {
  }

  ghost function Sweeps(id: SchedulerId, order: seq<VersionId>): seq<Action> {
    seq(|order|, k requires 0 <= k < |order| => Sweep(id, order[k]))
  }

  lemma SweepsConcat(id: SchedulerId, before: seq<Action>, xs: seq<VersionId>, ys: seq<VersionId>, order: seq<VersionId>)
    requires order == xs + ys
    ensures before + Sweeps(id, order) == before + Sweeps(id, xs) + Sweeps(id, ys)
  {
    assert Sweeps(id, order) == Sweeps(id, xs) + Sweeps(id, ys);
  }

  lemma SweepsAreMine(id: SchedulerId, log: seq<Action>, order: seq<VersionId>, all: seq<Action>)
    requires all == log + Sweeps(id, order)
    ensures Mine(id, all) == Mine(id, log) + Sweeps(id, order)
  {
    AllMine(id, log, Sweeps(id, order));
  }

  /** What a sweep of these rows leaves to push. */
  function PushesFor(id: SchedulerId, db: Db, order: seq<VersionId>): seq<Push> {
    if order == [] then []
    else PushesFor(id, db, order[..|order| - 1]) + PushFor(id, db, order[|order| - 1])
  }

  function PushFor(id: SchedulerId, db: Db, v: VersionId): seq<Push> {
    if v in db.rows && db.CanRequeue(v) then [Push(id, db.rows[v].tenant, v, db.rows[v].payload.value)] else []
  }

  lemma {:induction false} PushesConcat(id: SchedulerId, db: Db, db': Db, xs: seq<VersionId>, ys: seq<VersionId>)
    requires db'.maxResume == db.maxResume && forall v :: v in ys ==> v in db.rows && v in db'.rows && db'.rows[v] == db.rows[v]
    ensures PushesFor(id, db, xs + ys) == PushesFor(id, db, xs) + PushesFor(id, db', ys)
  {
    if ys == [] {
      assert xs + ys == xs;
    } else {
      var v := ys[|ys| - 1];
      assert (xs + ys)[..|xs + ys| - 1] == xs + ys[..|ys| - 1];
      PushesConcat(id, db, db', xs, ys[..|ys| - 1]);
      assert v in ys && PushFor(id, db, v) == PushFor(id, db', v);
    }
  }

  lemma {:induction false} PushesAreOwn(id: SchedulerId, db: Db, order: seq<VersionId>)
    ensures forall q :: q in PushesFor(id, db, order) ==> q.sched == id
  {
    if order != [] { PushesAreOwn(id, db, order[..|order| - 1]); }
  }

  /** The elements of the set, each once. */
  ghost predicate Lists(order: seq<VersionId>, ids: set<VersionId>) {
    Distinct(order) && |order| == |ids| && forall v :: v in order <==> v in ids
  }

  lemma ListsMore(order: seq<VersionId>, ids: set<VersionId>, v: VersionId)
    requires Lists(order, ids) && v !in ids
    ensures Lists(order + [v], ids + {v})
  {
    assert forall i :: 0 <= i < |order| ==> order[i] in order;
  }

  lemma ListsBoth(xs: seq<VersionId>, ys: seq<VersionId>, a: set<VersionId>, b: set<VersionId>)
    requires Lists(xs, a) && Lists(ys, b) && a !! b
    ensures Lists(xs + ys, a + b)
  {
    var order := xs + ys;
    forall i, j | 0 <= i < j < |order| ensures order[i] != order[j] {
      if i < |xs| <= j {
        assert order[i] in xs && order[j] in ys;
      }
    }
  }

  /** A sweep of `ids`, row by row in some order, with the pushes it leaves outstanding. */
  ghost predicate SweptRows(
    id: SchedulerId, s: State, s': State, ids: set<VersionId>, order: seq<VersionId>, requeue: seq<Push>)
  {
    && Lists(order, ids) && SweptExactly(s.db, s'.db, ids)
    && requeue == PushesFor(id, s.db, order) && s'.requeue == s.requeue + multiset(requeue)
  }

  lemma SweptNone(id: SchedulerId, s: State, none: set<VersionId>)
    requires none == {}
    ensures SweptRows(id, s, s, none, [], [])
  {
  }

  lemma SweptLeaves(
    id: SchedulerId, s: State, mid: State, ids: set<VersionId>, order: seq<VersionId>, requeue: seq<Push>, v: VersionId)
    requires SweptRows(id, s, mid, ids, order, requeue) && v !in ids && s.db.Sweepable(v)
    ensures mid.db.Sweepable(v) && mid.db.rows[v] == s.db.rows[v]
  {
  }

  lemma SweptMore(
    id: SchedulerId, s: State, mid: State, ids: set<VersionId>, order: seq<VersionId>, requeue: seq<Push>, v: VersionId)
    requires SweptRows(id, s, mid, ids, order, requeue) && v !in ids && s.db.Sweepable(v)
    ensures SweptRows(id, s, Step(mid, Sweep(id, v)), ids + {v}, order + [v], requeue + PushFor(id, mid.db, v))
  {
    var s' := Step(mid, Sweep(id, v));
    SweptLeaves(id, s, mid, ids, order, requeue, v);
    StepSweeps(mid, id, v);
    SweptOneMore(s.db, mid.db, s'.db, ids, v);
    ListsMore(order, ids, v);
    PushesMore(id, s.db, mid.db, order, v);
  }

  lemma PushesMore(id: SchedulerId, db: Db, mid: Db, order: seq<VersionId>, v: VersionId)
    requires v in db.rows && v in mid.rows && mid.rows[v] == db.rows[v] && mid.maxResume == db.maxResume
    ensures PushesFor(id, db, order + [v]) == PushesFor(id, db, order) + PushFor(id, mid, v)
  {
    assert (order + [v])[..|order|] == order;
  }

  lemma StepSweeps(s: State, id: SchedulerId, v: VersionId)
    requires s.db.Sweepable(v)
    ensures Step(s, Sweep(id, v)).db == s.db.SweepRow(v)
    ensures Step(s, Sweep(id, v)).requeue == s.requeue + multiset(PushFor(id, s.db, v))
  {
  }

  lemma SweptBoth(
    id: SchedulerId, s: State, mid: State, s': State, xs: set<VersionId>, ys: set<VersionId>,
    order1: seq<VersionId>, order2: seq<VersionId>, first: seq<Push>, second: seq<Push>,
    order: seq<VersionId>, requeue: seq<Push>)
    requires SweptRows(id, s, mid, xs, order1, first) && SweptRows(id, mid, s', ys, order2, second) && xs !! ys
    requires order == order1 + order2 && requeue == first + second
    ensures SweptRows(id, s, s', xs + ys, order, requeue)
  {
    SweptTwice(s.db, mid.db, s'.db, xs, ys);
    ListsBoth(order1, order2, xs, ys);
    PushesBoth(id, s.db, mid.db, xs, ys, order1, order2, order);
  }

  lemma PushesBoth(
    id: SchedulerId, db: Db, mid: Db, xs: set<VersionId>, ys: set<VersionId>, order1: seq<VersionId>, order2: seq<VersionId>, order: seq<VersionId>)
    requires SweptExactly(db, mid, xs) && xs !! ys && ys <= mid.rows.Keys && (forall v :: v in order2 ==> v in ys) && order == order1 + order2
    ensures PushesFor(id, db, order) == PushesFor(id, db, order1) + PushesFor(id, mid, order2)
  {
    assert forall v :: v in order2 ==> v in ys && mid.rows[v] == db.rows[v];
    PushesConcat(id, db, mid, order1, order2);
  }

  const PushAttempts: nat := 3

  /** Up to `k` attempts to push, from command number `n` on; after the last one fails the retry is given back. */
  ghost function Attempts(fate: nat -> Fate, n: nat, k: nat, q: Push): seq<Action>
    decreases k
  {
    if k == 0 then [PushFailed(q, !fate(n).Unreached?)]
    else if fate(n).Answered? then [PushDone(q, false)]
    else (if fate(n).ReplyLost? then [PushDone(q, true)] else []) + Attempts(fate, n + 1, k - 1, q)
  }

  ghost function AfterAttempts(fate: nat -> Fate, n: nat, k: nat): nat
    decreases k
  {
    if k == 0 || fate(n).Answered? then n + 1 else AfterAttempts(fate, n + 1, k - 1)
  }

  /**
    Of `k` attempts from command number `n` on, `left` are left at number `m`,
    or one was answered; the scheduler's actions grew from `before` to `mine`.
  */
  ghost predicate Pushed(
    pushed: bool, fate: nat -> Fate, n: nat, m: nat, k: nat, left: nat, q: Push, before: seq<Action>, mine: seq<Action>)
  {
    if pushed then m == AfterAttempts(fate, n, k) && mine == before + Attempts(fate, n, k, q)
    else
      && AfterAttempts(fate, m, left) == AfterAttempts(fate, n, k)
      && mine + Attempts(fate, m, left, q) == before + Attempts(fate, n, k, q)
  }

  lemma PushedMore(
    fate: nat -> Fate, n: nat, m: nat, k: nat, left: nat, q: Push, before: seq<Action>, mine: seq<Action>, mine': seq<Action>)
    requires Pushed(false, fate, n, m, k, left, q, before, mine) && left > 0
    requires mine' == mine + if fate(m).Unreached? then [] else [PushDone(q, !fate(m).Answered?)]
    ensures Pushed(fate(m).Answered?, fate, n, m + 1, k, left - 1, q, before, mine')
  {
    assert fate(m).Unreached? ==> mine' == mine;
  }

  /** The attempts end in a push that was answered if there is one, and in the rollback otherwise. */
  lemma {:induction false} AttemptsEnd(fate: nat -> Fate, n: nat, k: nat, q: Push)
    ensures var acts := Attempts(fate, n, k, q);
            && acts != []
            && acts[|acts| - 1] == (if SomeAnswered(fate, n, k) then PushDone(q, false) else PushFailed(q, !fate(n + k).Unreached?))
            && forall i :: 0 <= i < |acts| - 1 ==> acts[i] == PushDone(q, true)
    decreases k
  {
    if k > 0 && !fate(n).Answered? {
      AttemptsEnd(fate, n + 1, k - 1, q);
      assert SomeAnswered(fate, n, k) <==> SomeAnswered(fate, n + 1, k - 1);
    }
  }

  /** The pushes of a sweep, one after another. */
  ghost function Pushing(fate: nat -> Fate, n: nat, k: nat, requeue: seq<Push>): seq<Action>
    decreases |requeue|
  {
    if requeue == [] then []
    else Attempts(fate, n, k, requeue[0]) + Pushing(fate, AfterAttempts(fate, n, k), k, requeue[1..])
  }

  /** After a lost commit reply the decisions are forgotten. */
  ghost function Forgetting(requeue: seq<Push>): seq<Action> {
    if requeue == [] then [] else [PushFailed(requeue[0], false)] + Forgetting(requeue[1..])
  }

  /**
    The due rows, and no others, were swept in one stretch of the log that
    goes from `at` to `to`; beyond that the scheduler only did `followups`.
  */
  ghost predicate Executed(
    states: seq<State>, log: seq<Action>, before: seq<Action>, id: SchedulerId, deferred: set<VersionId>,
    order: seq<VersionId>, at: nat, to: nat, followups: seq<Action>)
  {
    && to == at + |order| && to < |states| && to <= |log|
    && SweptRows(id, states[at], states[to], AllDue(states[at].db, deferred), order, PushesFor(id, states[at].db, order))
    && log[at..to] == Sweeps(id, order)
    && Mine(id, log) == Mine(id, before) + Sweeps(id, order) + followups
  }

  lemma SweepStands(
    s: State, s': State, taken: seq<Action>, states: seq<State>, log: seq<Action>, states': seq<State>, log': seq<Action>,
    before: seq<Action>, id: SchedulerId, deferred: set<VersionId>, order: seq<VersionId>, requeue: seq<Push>, followups: seq<Action>)
    requires |states| == |log| + 1 && states <= states' && log <= log'
    requires log == taken + Sweeps(id, order) && s == states[|taken|] && s' == states[|log|]
    requires SweptRows(id, s, s', AllDue(s.db, deferred), order, requeue)
    requires Mine(id, taken) == Mine(id, before) && Mine(id, log') == Mine(id, log) + followups
    ensures Executed(states', log', before, id, deferred, order, |taken|, |log|, followups)
  {
    SweepsAreMine(id, taken, order, log);
    SliceStands(taken, Sweeps(id, order), log, log');
    assert states'[|taken|] == s && states'[|log|] == s';
  }

  lemma SliceStands(taken: seq<Action>, acts: seq<Action>, log: seq<Action>, log': seq<Action>)
    requires log == taken + acts && log <= log'
    ensures log'[|taken|..|log|] == acts
  {
  }

  /**
    The database part of a cycle whose first command has number `n`: nothing
    without the lock, nothing after a rollback, otherwise the sweep.
  */
  ghost predicate SweptAt(
    states: seq<State>, log: seq<Action>, before: seq<Action>, id: SchedulerId, fate: nat -> Fate, n: nat,
    deferred: set<VersionId>, order: seq<VersionId>, at: nat, to: nat)
  {
    && at < |states| && at <= |log|
    && if !fate(n).Answered? || fate(n + 1).Unreached? then
         order == [] && to == at && Mine(id, log) == Mine(id, before)
       else
         Executed(states, log, before, id, deferred, order, at, to,
                  Followups(fate, n + 2, PushAttempts, fate(n + 1).Answered?, PushesFor(id, states[at].db, order)))
  }

  /** What the scheduler does about the pushes of a sweep, from command number `n` on, with `k` attempts each. */
  ghost function Followups(fate: nat -> Fate, n: nat, k: nat, committed: bool, requeue: seq<Push>): seq<Action> {
    if committed then Pushing(fate, n, k, requeue) else Forgetting(requeue)
  }

  /** No pending row was swept although the reaper had just seen its job on a list of its own tenant. */
  ghost predicate Spared(db: Db, visits: seq<Visit>, order: seq<VersionId>) {
    forall i, j :: 0 <= i < |visits| && 0 <= j < |visits[i].list| ==>
      var v := visits[i].list[j].version;
      v in order && v in db.rows && db.rows[v].status.Pending? ==> db.rows[v].tenant != visits[i].key.tenant
  }

  /** An entry that was touched keeps its row from being due until the stuck threshold has passed. */
  lemma TouchedIsFresh(origin: State, log: seq<Action>, states: seq<State>, from: nat, touched: nat, at: nat, t: TenantId, v: VersionId)
    requires Recorded(origin, log, states) && from <= touched < at <= |log| && log[touched] == Touch(t, v)
    requires v in states[at].db.rows && states[at].db.rows[v].status.Pending? && states[at].db.rows[v].tenant == t
    requires states[at].db.now - states[from].db.now <= states[from].db.stuckAfter
    ensures !states[at].db.Sweepable(v)
  {
    var t0 := states[from].db.now;
    ClockBetween(origin, log, states, from, touched);
    ClockBetween(origin, log, states, from, at);
    NextState(origin, log, states, touched);
    TouchFreshens(states[touched], t, v, t0);
    if FreshSince(states[touched + 1].db, v, t0) {
      FreshBetween(origin, log, states, touched + 1, at, v, t0);
    } else {
      PersistsBetween(origin, log, states, touched + 1, at);
    }
  }

  lemma TouchFreshens(s: State, t: TenantId, v: VersionId, t0: int)
    requires s.db.now >= t0
    ensures var s' := Step(s, Touch(t, v));
            && s'.db.now == s.db.now
            && (FreshSince(s'.db, v, t0) || (v in s'.db.rows && s'.db.rows[v].tenant != t))
  {
  }

  /** Nothing the reaper saw is failed by the sweep that follows, while the cycle stays within the stuck threshold. */
  lemma SeenIsSpared(
    origin: State, log: seq<Action>, states: seq<State>, fate: nat -> Fate, from: nat, keys: seq<ProcKey>, visits: seq<Visit>,
    n: nat, order: seq<VersionId>, at: nat)
    requires Recorded(origin, log, states) && from <= at <= |log|
    requires AllVisited(states[..at + 1], log[..at], fate, from, keys, visits, n)
    requires order == [] || Lists(order, AllDue(states[at].db, Deferred(fate, visits)))
    ensures states[at].db.now - states[from].db.now <= states[from].db.stuckAfter ==> Spared(states[at].db, visits, order)
  {
    if states[at].db.now - states[from].db.now <= states[from].db.stuckAfter && order != [] {
      DueAreSpared(origin, log, states, fate, from, keys, visits, n, order, at);
    }
  }

  lemma DueAreSpared(
    origin: State, log: seq<Action>, states: seq<State>, fate: nat -> Fate, from: nat, keys: seq<ProcKey>, visits: seq<Visit>,
    n: nat, order: seq<VersionId>, at: nat)
    requires Recorded(origin, log, states) && from <= at <= |log|
    requires AllVisited(states[..at + 1], log[..at], fate, from, keys, visits, n)
    requires Lists(order, AllDue(states[at].db, Deferred(fate, visits)))
    requires states[at].db.now - states[from].db.now <= states[from].db.stuckAfter
    ensures Spared(states[at].db, visits, order)
  {
    var db := states[at].db;
    forall i, j | 0 <= i < |visits| && 0 <= j < |visits[i].list|
      ensures var v := visits[i].list[j].version;
              v in order && v in db.rows && db.rows[v].status.Pending? ==> db.rows[v].tenant != visits[i].key.tenant
    {
      var visit := visits[i];
      var v := visit.list[j].version;
      assert Visited(states[..at + 1], log[..at], fate, from, visit);
      if v in order && db.rows[v].status.Pending? && db.rows[v].tenant == visit.key.tenant {
        DeferredHas(fate, visits, i);
        if !fate(TouchNumber(fate, visit.number + 2, j)).Answered? {
          UnansweredHas(fate, visit.list, visit.number + 2, j);
          assert false;
        }
        var h := visit.handlings[j];
        assert Attended(states[..at + 1], log[..at], fate, visit.key, visit.list[j], TouchNumber(fate, visit.number + 2, j), visit.read, h);
        TouchedIsFresh(origin, log, states, from, h.touched, at, visit.key.tenant, v);
        assert false;
      }
    }
  }

  lemma FollowupsStep(fate: nat -> Fate, n: nat, k: nat, committed: bool, requeue: seq<Push>, i: nat, mine: seq<Action>)
    requires i < |requeue|
    ensures mine + Followups(fate, n, k, committed, requeue[i..]) ==
      if committed then mine + Attempts(fate, n, k, requeue[i]) + Followups(fate, AfterAttempts(fate, n, k), k, true, requeue[i + 1..])
      else mine + [PushFailed(requeue[i], false)] + Followups(fate, n, k, false, requeue[i + 1..])
  {
    var rest := requeue[i..];
    assert rest != [] && rest[0] == requeue[i] && rest[1..] == requeue[i + 1..];
    if committed {
      assert Followups(fate, n, k, true, rest) ==
        Attempts(fate, n, k, rest[0]) + Followups(fate, AfterAttempts(fate, n, k), k, true, rest[1..]);
    } else {
      assert Followups(fate, n, k, false, rest) == [PushFailed(rest[0], false)] + Followups(fate, n, k, false, rest[1..]);
    }
  }

  lemma NextPush(id: SchedulerId, rest: multiset<Push>, requeue: seq<Push>, i: nat, outstanding: multiset<Push>)
    requires i < |requeue| && requeue[i].sched == id && SamePushes(id, rest + multiset(requeue[i..]), outstanding)
    ensures requeue[i] in outstanding
    ensures SamePushes(id, rest + multiset(requeue[i + 1..]), outstanding - multiset{requeue[i]})
  {
    assert requeue[i..] == [requeue[i]] + requeue[i + 1..];
    assert outstanding[requeue[i]] == (rest + multiset(requeue[i..]))[requeue[i]];
  }

  /**
    A cycle that began when the log was `before`: it visited the lists of `keys`
    one after another, and after that swept exactly the rows that were due and
    pushed what the sweep left. Unless the stuck threshold passed between its
    start and its sweep, it spared whatever the reaper had seen.
  */
  ghost predicate Cycle(
    states: seq<State>, log: seq<Action>, before: seq<Action>, id: SchedulerId, fate: nat -> Fate, n: nat,
    keys: seq<ProcKey>, visits: seq<Visit>, order: seq<VersionId>, at: nat, to: nat, swept: nat)
  {
    var begin := NextNumber(visits, n);
    && |before| <= at <= |log| && at < |states| && |visits| == |keys|
    && AllVisited(states[..at + 1], log[..at], fate, |before|, keys, visits, n)
    && SweptAt(states, log, before, id, fate, begin, Deferred(fate, visits), order, at, to)
    && swept == Reported(fate, begin, Transferred(visits), |order|)
    && (states[at].db.now - states[|before|].db.now <= states[|before|].db.stuckAfter ==> Spared(states[at].db, visits, order))
  }

  /** The count a cycle reports: a lost or refused commit makes it zero. */
  function Reported(fate: nat -> Fate, n: nat, reaped: nat, swept: nat): nat {
    if !fate(n).Answered? then reaped else if fate(n + 1).Answered? then reaped + swept else 0
  }

  lemma CycleHolds(
    origin: State, states: seq<State>, log: seq<Action>, states': seq<State>, log': seq<Action>, before: seq<Action>,
    id: SchedulerId, fate: nat -> Fate, n: nat, keys: seq<ProcKey>, visits: seq<Visit>, deferred: set<VersionId>,
    order: seq<VersionId>, at: nat, to: nat, swept: nat)
    requires Recorded(origin, log', states') && |states| == |log| + 1 && states <= states' && before <= log <= log'
    requires |visits| == |keys| && AllVisited(states, log, fate, |before|, keys, visits, n) && deferred == Deferred(fate, visits)
    requires |log| <= at && SweptAt(states', log', before, id, fate, NextNumber(visits, n), deferred, order, at, to)
    requires swept == Reported(fate, NextNumber(visits, n), Transferred(visits), |order|)
    ensures Cycle(states', log', before, id, fate, n, keys, visits, order, at, to, swept)
  {
    VisitsStand(states, log, states', log', at, fate, |before|, keys, visits, n);
    SeenIsSpared(origin, log', states', fate, |before|, keys, visits, n, order, at);
  }

  // ---- The threshold is needed ----

  function AllAnswered(i: nat): Fate {
    Answered
  }

  const JOB := Payload(0, 0, "")
  const OWNER := ProcKey(0, 0)

  /** Worker 0 died with the only copy of a job whose row never got the payload. */
  ghost predicate Orphaned(s: State) {
    && s.db.rows == map[0 := Row(0, Pending, None, None, 0, s.db.now)]
    && s.redis.Proc(0, 0) == [JOB] && 0 !in s.redis.beating && s.requeue == multiset{}
  }

  lemma OrphanedRun(origin: State) returns (log: seq<Action>, states: seq<State>)
    requires Init(origin)
    ensures Recorded(origin, log, states) && Orphaned(states[|log|])
    ensures states[|log|].db.stuckAfter == origin.db.stuckAfter
  {
    var s1, s2, s3 := JobTaken(origin);
    var s4 := Step(s3, Crash(0));
    var s5 := Step(s4, Heartbeat(0, false));
    log, states := [], [origin];
    assert log[..0] == [];
    log, states := Record(origin, log, states, CreateVersion(0, 0), s1);
    log, states := Record(origin, log, states, Produce(0, JOB), s2);
    log, states := Record(origin, log, states, LMove(0, 0, false), s3);
    log, states := Record(origin, log, states, Crash(0), s4);
    log, states := Record(origin, log, states, Heartbeat(0, false), s5);
  }

  lemma JobTaken(origin: State) returns (s1: State, s2: State, s3: State)
    requires Init(origin)
    ensures s1 == Step(origin, CreateVersion(0, 0)) && s2 == Step(s1, Produce(0, JOB)) && s3 == Step(s2, LMove(0, 0, false))
    ensures s3.db == origin.db.Create(0, 0) && s3.redis.Proc(0, 0) == [JOB] && s3.requeue == multiset{}
  {
    s1 := Step(origin, CreateVersion(0, 0));
    s2 := Step(s1, Produce(0, JOB));
    assert s2.redis.Queue(0) == [JOB] && s2.redis.Proc(0, 0) == [];
    s3 := Step(s2, LMove(0, 0, false));
  }

  lemma Record(origin: State, log: seq<Action>, states: seq<State>, a: Action, s: State)
    returns (log': seq<Action>, states': seq<State>)
    requires Recorded(origin, log, states) && s == Step(states[|log|], a)
    ensures log' == log + [a] && states' == states + [s] && Recorded(origin, log', states')
  {
    RecordedMore(origin, log, states, a);
    log', states' := log + [a], states + [s];
  }

  /**
    With one tick more than the threshold between touch and sweep, a job that
    the reaper found and handed back is failed in the same cycle.
  */
  lemma ThresholdIsNeeded(origin: State, id: SchedulerId)
    returns (states: seq<State>, log: seq<Action>, before: seq<Action>, visits: seq<Visit>, at: nat)
    requires Init(origin)
    ensures Recorded(origin, log, states)
    ensures Cycle(states, log, before, id, AllAnswered, 0, [OWNER], visits, [0], at, at + 1, 2)
    ensures states[at].db.now - states[|before|].db.now == states[|before|].db.stuckAfter + 1
    ensures !Spared(states[at].db, visits, [0])
    ensures states[at].db.rows[0].status.Pending? && states[at + 1].db.rows[0].status.Error?
  {
    before, states := OrphanedRun(origin);
    var n, s := |before|, states[|before|];
    var s1, s2, s3, s4 := LateSweep(s, id);
    log, states := Record(origin, before, states, Touch(0, 0), s1);
    log, states := Record(origin, log, states, Reap(0, 0, JOB), s2);
    log, states := Record(origin, log, states, Tick(s.db.stuckAfter + 1), s3);
    var reaped := log;
    log, states := Record(origin, log, states, Sweep(id, 0), s4);
    at := n + 3;
    var h := Handling(n, n + 1, true);
    var v := Visit(OWNER, 0, 4, n, n, [JOB], [h]);
    visits := [v];
    VisitOfOne(states[..at + 1], log[..at], n, v, visits, h);
    LoneSweep(states, log, before, reaped, id, visits, at, s.db.stuckAfter);
    assert visits[0].list[0].version == 0;
  }

  lemma LateSweep(s: State, id: SchedulerId) returns (s1: State, s2: State, s3: State, s4: State)
    requires Orphaned(s)
    ensures s1 == Step(s, Touch(0, 0)) && s2 == Step(s1, Reap(0, 0, JOB))
    ensures s3 == Step(s2, Tick(s.db.stuckAfter + 1)) && s4 == Step(s3, Sweep(id, 0))
    ensures s1.redis == s.redis && s3.db.now == s.db.now + s.db.stuckAfter + 1
    ensures s3.db.rows.Keys == {0} && s3.db.Sweepable(0) && s3.db.rows[0].status.Pending? && s3.db.rows[0].tenant == 0
    ensures !s3.db.CanRequeue(0) && s3.requeue == multiset{} && s4 == s3.(db := s3.db.SweepRow(0))
  {
    s1 := Step(s, Touch(0, 0));
    s2 := Step(s1, Reap(0, 0, JOB));
    assert s2.db == s1.db && s2.requeue == multiset{};
    s3 := Step(s2, Tick(s.db.stuckAfter + 1));
    s4 := Step(s3, Sweep(id, 0));
  }

  lemma VisitOfOne(states: seq<State>, log: seq<Action>, n: nat, v: Visit, visits: seq<Visit>, h: Handling)
    requires |states| == n + 4 && |log| == n + 3 && log[n] == Touch(0, 0) && log[n + 1] == Reap(0, 0, JOB)
    requires Orphaned(states[n]) && states[n + 1].redis == states[n].redis
    requires h == Handling(n, n + 1, true) && v == Visit(OWNER, 0, 4, n, n, [JOB], [h]) && visits == [v]
    ensures AllVisited(states, log, AllAnswered, n, [OWNER], visits, 0)
    ensures Deferred(AllAnswered, visits) == {} && NextNumber(visits, 0) == 4 && Transferred(visits) == 1
  {
    assert TouchNumber(AllAnswered, 2, 1) == 4 && TouchNumber(AllAnswered, 2, 0) == 2;
    assert Attended(states, log, AllAnswered, OWNER, JOB, 2, n, h);
    assert Visited(states, log, AllAnswered, n, v);
    assert visits[..0] == [] && [JOB][..0] == [] && [h][..0] == [];
    assert Unanswered(AllAnswered, [JOB], 2) == {};
    assert MovedCount([h]) == 1;
  }

  lemma LoneSweep(
    states: seq<State>, log: seq<Action>, before: seq<Action>, reaped: seq<Action>, id: SchedulerId, visits: seq<Visit>, at: nat, stuck: nat)
    requires at == |before| + 3 == |reaped| && |log| == at + 1 && |states| == at + 2
    requires reaped == before + [Touch(0, 0), Reap(0, 0, JOB), Tick(stuck + 1)] && log == reaped + [Sweep(id, 0)]
    requires var db := states[at].db; db.rows.Keys == {0} && db.Sweepable(0) && !db.CanRequeue(0)
    requires states[at + 1] == states[at].(db := states[at].db.SweepRow(0))
    requires Deferred(AllAnswered, visits) == {} && NextNumber(visits, 0) == 4
    ensures SweptAt(states, log, before, id, AllAnswered, NextNumber(visits, 0), Deferred(AllAnswered, visits), [0], at, at + 1)
  {
    LoneRow(id, states[at], states[at + 1]);
    LoneSweepIsMine(id, before, reaped, log, stuck);
  }

  lemma LoneRow(id: SchedulerId, s: State, s': State)
    requires s.db.rows.Keys == {0} && s.db.Sweepable(0) && !s.db.CanRequeue(0) && s' == s.(db := s.db.SweepRow(0))
    ensures PushesFor(id, s.db, [0]) == [] && SweptRows(id, s, s', AllDue(s.db, {}), [0], [])
  {
    assert AllDue(s.db, {}) == {0} && [0][..0] == [];
    SweptOneMore(s.db, s.db, s'.db, {}, 0);
  }

  lemma LoneSweepIsMine(id: SchedulerId, before: seq<Action>, reaped: seq<Action>, log: seq<Action>, stuck: nat)
    requires reaped == before + [Touch(0, 0), Reap(0, 0, JOB), Tick(stuck + 1)] && log == reaped + [Sweep(id, 0)]
    ensures Mine(id, log) == Mine(id, before) + [Sweep(id, 0)] && Sweeps(id, [0]) == [Sweep(id, 0)]
  {
    OthersAreNotMine(id, before, [Touch(0, 0), Reap(0, 0, JOB), Tick(stuck + 1)]);
    MineMore(id, reaped, Sweep(id, 0));
  }

  // ---- The scheduler ----

  /**
    `fate(i)` is how the i-th command this scheduler sends will go. An advisory
    lock that another scheduler holds counts as a command that was not reached.
  */
  class Scheduler {
    const cluster: Cluster
    const id: SchedulerId
    const fate: nat -> Fate
    var sent: nat
    var totalSwept: nat

    constructor (cluster: Cluster, id: SchedulerId, fate: nat -> Fate)
      ensures this.cluster == cluster && this.id == id && this.fate == fate && sent == 0 && totalSwept == 0
    {
      this.cluster, this.id, this.fate := cluster, id, fate;
      sent, totalSwept := 0, 0;
    }

    /** No push of this scheduler is outstanding. */
    ghost predicate Settled()
      reads this, cluster
    {
      forall q :: q in cluster.st.requeue ==> q.sched != id
    }

    /** Neither a sweep nor a push of this scheduler happened meanwhile. */
    twostate predicate Quiet()
      reads this, cluster
    {
      && cluster.Grown() && Mine(id, cluster.log) == Mine(id, old(cluster.log))
      && SamePushes(id, old(cluster.st).requeue, cluster.st.requeue)
    }

    /** The rest of the world moves. */
    method Yield()
      requires cluster.Valid()
      modifies cluster
      ensures cluster.Valid() && Quiet()
    {
      cluster.Interfere(None, Some(id));
      cluster.Since(|old(cluster.log)|);
      ghost var s, acts := old(cluster.st), cluster.log[|old(cluster.log)|..];
      forall q: Push | q.sched == id ensures Run(s, acts).requeue[q] == s.requeue[q] {
        OthersLeavePushes(s, acts, q);
      }
      OthersAreNotMine(id, old(cluster.log), acts);
      assert cluster.log == old(cluster.log) + acts;
    }

    /** A command of the reaper. */
    method Do(a: Action)
      requires cluster.Valid() && (a.Touch? || a.Reap?)
      modifies cluster
      ensures cluster.Valid() && Quiet()
      ensures cluster.log == old(cluster.log) + [a] && cluster.st == Step(old(cluster.st), a)
    {
      cluster.Do(a);
      RestLeavesPushes(old(cluster.st), a);
      MineMore(id, old(cluster.log), a);
    }

    /** Touch the row first, then transfer the entry; without an answer to the touch, leave the entry alone. */
    method ReapEntry(key: ProcKey, p: Payload) returns (transferred: bool, deferred: bool, ghost h: Handling)
      requires cluster.Valid()
      modifies cluster, this`sent
      ensures cluster.Valid() && Quiet()
      ensures deferred == !fate(old(sent)).Answered? && transferred == h.moved
      ensures sent == old(sent) + if deferred then 1 else 2
      ensures Attended(cluster.states, cluster.log, fate, key, p, old(sent), |old(cluster.log)|, h)
    {
      Yield();
      var f := fate(sent);
      sent := sent + 1;
      h := Handling(|cluster.log|, 0, false);
      transferred, deferred := false, !f.Answered?;
      if !f.Unreached? {
        Do(Touch(key.tenant, p.version));
      }
      if deferred { return; }
      ghost var reaped;
      transferred, reaped := TransferBack(key, p);
      h := h.(reaped := reaped, moved := transferred);
    }

    /** The atomic transfer; without a reply it is not known to have moved anything. */
    method TransferBack(key: ProcKey, p: Payload) returns (transferred: bool, ghost reaped: nat)
      requires cluster.Valid()
      modifies cluster, this`sent
      ensures cluster.Valid() && Quiet() && sent == old(sent) + 1 && |old(cluster.log)| <= reaped < |cluster.states|
      ensures fate(old(sent)).Unreached? ==> !transferred
      ensures !fate(old(sent)).Unreached? ==>
                && reaped < |cluster.log| && cluster.log[reaped] == Reap(key.worker, key.tenant, p)
                && transferred == (fate(old(sent)).Answered? && p in cluster.states[reaped].redis.Proc(key.worker, key.tenant))
    {
      Yield();
      var f := fate(sent);
      sent := sent + 1;
      transferred, reaped := false, |cluster.log|;
      if !f.Unreached? {
        transferred := f.Answered? && p in cluster.st.redis.Proc(key.worker, key.tenant);
        Do(Reap(key.worker, key.tenant, p));
      }
    }

    /** All entries of one dead worker's list for one tenant; the first touch has command number `n`. */
    method ReapList(key: ProcKey, list: seq<Payload>, ghost n: nat)
      returns (transferred: nat, deferred: set<VersionId>, ghost handlings: seq<Handling>)
      requires cluster.Valid() && sent == n
      modifies cluster, this`sent
      ensures cluster.Valid() && Quiet()
      ensures |handlings| == |list| && sent == TouchNumber(fate, n, |list|)
      ensures AllAttended(cluster.states, cluster.log, fate, key, list, n, |old(cluster.log)|, handlings)
      ensures transferred == MovedCount(handlings) && deferred == Unanswered(fate, list, n)
    {
      transferred, deferred, handlings := 0, {}, [];
      for i := 0 to |list|
        invariant cluster.Valid() && Quiet()
        invariant |handlings| == i && sent == TouchNumber(fate, n, i)
        invariant AllAttended(cluster.states, cluster.log, fate, key, list, n, |old(cluster.log)|, handlings)
        invariant transferred == MovedCount(handlings) && deferred == Unanswered(fate, list[..i], n)
      {
        ghost var states, log, was := cluster.states, cluster.log, handlings;
        ghost var h;
        var moved, wasDeferred;
        moved, wasDeferred, h := ReapEntry(key, list[i]);
        if moved { transferred := transferred + 1; }
        if wasDeferred { deferred := deferred + {list[i].version}; }
        handlings := was + [h];
        CountMore(was, h, handlings);
        AttendedMore(states, log, cluster.states, cluster.log, fate, key, list, n, |old(cluster.log)|, was, h, handlings);
        UnansweredMore(fate, list, n, i);
      }
      assert list[..|list|] == list;
    }

    /** One scanned key: nothing unless the heartbeat is known to be missing. */
    method ReapKey(key: ProcKey) returns (transferred: nat, deferred: set<VersionId>, ghost visit: Visit)
      requires cluster.Valid()
      modifies cluster, this`sent
      ensures cluster.Valid() && Quiet()
      ensures visit.key == key && visit.number == old(sent) && visit.next == sent
      ensures Visited(cluster.states, cluster.log, fate, |old(cluster.log)|, visit)
      ensures transferred == MovedCount(visit.handlings) && deferred == Unanswered(fate, visit.list, visit.number + 2)
    {
      var missing;
      ghost var at;
      missing, at := HeartbeatMissing(key.worker);
      if missing {
        transferred, deferred, visit := ReapDead(key, old(sent), at, |old(cluster.log)|);
      } else {
        transferred, deferred, visit := 0, {}, Visit(key, old(sent), sent, at, at, [], []);
        ListLeft(cluster.states, cluster.log, fate, |old(cluster.log)|, visit);
      }
    }

    /** EXISTS on the heartbeat key; an error is not an answer. */
    method HeartbeatMissing(worker: WorkerId) returns (missing: bool, ghost at: nat)
      requires cluster.Valid()
      modifies cluster, this`sent
      ensures cluster.Valid() && Quiet() && sent == old(sent) + 1 && |old(cluster.log)| <= at == |cluster.log|
      ensures missing == (fate(old(sent)).Answered? && worker !in cluster.states[at].redis.beating)
    {
      Yield();
      at := |cluster.log|;
      missing := fate(sent).Answered? && worker !in cluster.st.redis.beating;
      sent := sent + 1;
    }

    /** LRANGE; an error reads as an empty list. */
    method ReadList(key: ProcKey) returns (list: seq<Payload>, ghost read: nat)
      requires cluster.Valid()
      modifies cluster, this`sent
      ensures cluster.Valid() && Quiet() && sent == old(sent) + 1 && |old(cluster.log)| <= read == |cluster.log|
      ensures list == if fate(old(sent)).Answered? then cluster.states[read].redis.Proc(key.worker, key.tenant) else []
    {
      Yield();
      read := |cluster.log|;
      list := if fate(sent).Answered? then cluster.st.redis.Proc(key.worker, key.tenant) else [];
      sent := sent + 1;
    }

    /** Read the list of a worker that was dead in `states[at]`, and hand its entries back. */
    method ReapDead(key: ProcKey, ghost number: nat, ghost at: nat, ghost from: nat)
      returns (transferred: nat, deferred: set<VersionId>, ghost visit: Visit)
      requires cluster.Valid() && from <= at <= |cluster.log| && sent == number + 1
      requires fate(number).Answered? && key.worker !in cluster.states[at].redis.beating
      modifies cluster, this`sent
      ensures cluster.Valid() && Quiet()
      ensures visit.key == key && visit.number == number && visit.next == sent
      ensures Visited(cluster.states, cluster.log, fate, from, visit)
      ensures transferred == MovedCount(visit.handlings) && deferred == Unanswered(fate, visit.list, visit.number + 2)
    {
      var list;
      ghost var read, handlings;
      list, read := ReadList(key);
      transferred, deferred, handlings := ReapList(key, list, number + 2);
      visit := Visit(key, number, sent, at, read, list, handlings);
      ListRead(cluster.states, cluster.log, fate, from, visit);
    }

    /** Hand back the lists of every scanned worker whose heartbeat is confirmed missing. */
    method ReapOrphans(keys: seq<ProcKey>) returns (transferred: nat, deferred: set<VersionId>, ghost visits: seq<Visit>)
      requires cluster.Valid()
      modifies cluster, this`sent
      ensures cluster.Valid() && Quiet()
      ensures |visits| == |keys| && sent == NextNumber(visits, old(sent))
      ensures AllVisited(cluster.states, cluster.log, fate, |old(cluster.log)|, keys, visits, old(sent))
      ensures transferred == Transferred(visits) && deferred == Deferred(fate, visits)
    {
      transferred, deferred, visits := 0, {}, [];
      ghost var n := sent;
      for i := 0 to |keys|
        invariant cluster.Valid() && Quiet()
        invariant |visits| == i && sent == NextNumber(visits, n)
        invariant AllVisited(cluster.states, cluster.log, fate, |old(cluster.log)|, keys, visits, n)
        invariant transferred == Transferred(visits) && deferred == Deferred(fate, visits)
      {
        ghost var states, log, was := cluster.states, cluster.log, visits;
        ghost var visit;
        var moved, wasDeferred;
        moved, wasDeferred, visit := ReapKey(keys[i]);
        transferred := transferred + moved;
        deferred := deferred + wasDeferred;
        visits := was + [visit];
        VisitCounts(fate, was, visit, visits);
        VisitedMore(states, log, cluster.states, cluster.log, fate, |old(cluster.log)|, keys, was, visit, visits, n);
      }
    }

    /** One sweep over rows a SELECT ... FOR UPDATE returned; nobody else runs inside the transaction. */
    method SweepRows(ids: set<VersionId>) returns (requeue: seq<Push>, ghost order: seq<VersionId>)
      requires cluster.Valid() && forall v :: v in ids ==> cluster.st.db.Sweepable(v)
      modifies cluster
      ensures cluster.Valid() && cluster.Grown() && cluster.log == old(cluster.log) + Sweeps(id, order)
      ensures SweptRows(id, old(cluster.st), cluster.st, ids, order, requeue)
    {
      requeue, order := [], [];
      var todo := ids;
      ghost var s := cluster.st;
      SweptNone(id, s, ids - todo);
      while todo != {}
        invariant cluster.Valid() && cluster.Grown() && cluster.log == old(cluster.log) + Sweeps(id, order)
        invariant todo <= ids && SweptRows(id, s, cluster.st, ids - todo, order, requeue)
        decreases |todo|
      {
        var v :| v in todo;
        assert ids - (todo - {v}) == ids - todo + {v};
        requeue, order := SweepOne(v, requeue, s, old(cluster.log), ids - todo, order);
        todo := todo - {v};
      }
      assert ids - todo == ids;
    }

    /** One more row of a sweep that began in `s`, after the log `before`, and went through the rows in `done`. */
    method SweepOne(
      v: VersionId, requeue: seq<Push>, ghost s: State, ghost before: seq<Action>, ghost done: set<VersionId>, ghost order: seq<VersionId>)
      returns (requeue': seq<Push>, ghost order': seq<VersionId>)
      requires cluster.Valid() && SweptRows(id, s, cluster.st, done, order, requeue) && v !in done && s.db.Sweepable(v)
      requires cluster.log == before + Sweeps(id, order)
      modifies cluster
      ensures cluster.Valid() && cluster.Grown() && order' == order + [v]
      ensures cluster.log == before + Sweeps(id, order')
      ensures SweptRows(id, s, cluster.st, done + {v}, order', requeue')
    {
      SweptMore(id, s, cluster.st, done, order, requeue, v);
      requeue', order' := requeue + PushFor(id, cluster.st.db, v), order + [v];
      cluster.Do(Sweep(id, v));
      assert Sweeps(id, [v]) == [Sweep(id, v)];
      SweepsConcat(id, before, order, [v], order');
    }

    /** LPUSH with up to three attempts; then give the row its retry back, best effort. */
    method PushOne(q: Push)
      requires cluster.Valid() && q in cluster.st.requeue && q.sched == id
      modifies cluster, this`sent
      ensures cluster.Valid() && cluster.Grown() && sent == AfterAttempts(fate, old(sent), PushAttempts)
      ensures Mine(id, cluster.log) == Mine(id, old(cluster.log)) + Attempts(fate, old(sent), PushAttempts, q)
      ensures SamePushes(id, old(cluster.st).requeue - multiset{q}, cluster.st.requeue)
    {
      var pushed := PushUpTo(q, PushAttempts);
      if !pushed { RollBack(q, old(cluster.st.requeue)); }
    }

    /** Up to `k` attempts; `Pushed` says what they did and what is left. */
    method PushUpTo(q: Push, k: nat) returns (pushed: bool)
      requires cluster.Valid() && q in cluster.st.requeue && q.sched == id
      modifies cluster, this`sent
      ensures cluster.Valid() && cluster.Grown()
      ensures Pushed(pushed, fate, old(sent), sent, k, 0, q, Mine(id, old(cluster.log)), Mine(id, cluster.log))
      ensures SamePushes(id, if pushed then old(cluster.st).requeue - multiset{q} else old(cluster.st).requeue, cluster.st.requeue)
    {
      ghost var was := cluster.st.requeue;
      var attempt := 0;
      pushed := false;
      while attempt < k && !pushed
        invariant cluster.Valid() && cluster.Grown() && attempt <= k
        invariant Pushed(pushed, fate, old(sent), sent, k, k - attempt, q, Mine(id, old(cluster.log)), Mine(id, cluster.log))
        invariant SamePushes(id, if pushed then was - multiset{q} else was, cluster.st.requeue)
        decreases k - attempt, !pushed
      {
        ghost var n, mine := sent, Mine(id, cluster.log);
        pushed := TryPush(q, was);
        PushedMore(fate, old(sent), n, k, k - attempt, q, Mine(id, old(cluster.log)), mine, Mine(id, cluster.log));
        attempt := attempt + 1;
      }
    }

    /** Give the row its retry back. */
    method RollBack(q: Push, ghost was: multiset<Push>)
      requires cluster.Valid() && q in was && q.sched == id && SamePushes(id, was, cluster.st.requeue)
      modifies cluster, this`sent
      ensures cluster.Valid() && cluster.Grown() && sent == old(sent) + 1
      ensures Mine(id, cluster.log) == Mine(id, old(cluster.log)) + [PushFailed(q, !fate(old(sent)).Unreached?)]
      ensures SamePushes(id, was - multiset{q}, cluster.st.requeue)
    {
      Yield();
      assert cluster.st.requeue[q] == was[q];
      var rolledBack := !fate(sent).Unreached?;
      sent := sent + 1;
      MineMore(id, cluster.log, PushFailed(q, rolledBack));
      cluster.Do(PushFailed(q, rolledBack));
    }

    /** One attempt to push. */
    method TryPush(q: Push, ghost was: multiset<Push>) returns (pushed: bool)
      requires cluster.Valid() && q in was && q.sched == id && SamePushes(id, was, cluster.st.requeue)
      modifies cluster, this`sent
      ensures cluster.Valid() && cluster.Grown() && sent == old(sent) + 1
      ensures pushed == fate(old(sent)).Answered?
      ensures Mine(id, cluster.log) == Mine(id, old(cluster.log)) +
                if fate(old(sent)).Unreached? then [] else [PushDone(q, !pushed)]
      ensures SamePushes(id, if pushed then was - multiset{q} else was, cluster.st.requeue)
    {
      Yield();
      var f := fate(sent);
      sent := sent + 1;
      pushed := f.Answered?;
      if !f.Unreached? {
        assert cluster.st.requeue[q] == was[q];
        MineMore(id, cluster.log, PushDone(q, !pushed));
        cluster.Do(PushDone(q, !pushed));
      }
    }

    /** The decision is forgotten: a lost commit reply, or a scheduler that stops here. */
    method DropOne(q: Push)
      requires cluster.Valid() && q in cluster.st.requeue && q.sched == id
      modifies cluster
      ensures cluster.Valid() && cluster.Grown()
      ensures Mine(id, cluster.log) == Mine(id, old(cluster.log)) + [PushFailed(q, false)]
      ensures SamePushes(id, old(cluster.st).requeue - multiset{q}, cluster.st.requeue)
    {
      MineMore(id, cluster.log, PushFailed(q, false));
      cluster.Do(PushFailed(q, false));
    }

    /** Discharge every push the sweep left behind; after a lost commit reply nothing is pushed. */
    method Discharge(requeue: seq<Push>, push: bool, ghost rest: multiset<Push>)
      requires cluster.Valid() && SamePushes(id, rest + multiset(requeue), cluster.st.requeue)
      requires forall q :: q in requeue ==> q.sched == id
      modifies cluster, this`sent
      ensures cluster.Valid() && cluster.Grown()
      ensures Mine(id, cluster.log) == Mine(id, old(cluster.log)) + Followups(fate, old(sent), PushAttempts, push, requeue)
      ensures SamePushes(id, rest, cluster.st.requeue)
    {
      ghost var n, mine := sent, Mine(id, cluster.log);
      for i := 0 to |requeue|
        invariant cluster.Valid() && cluster.Grown()
        invariant SamePushes(id, rest + multiset(requeue[i..]), cluster.st.requeue)
        invariant Mine(id, cluster.log) + Followups(fate, sent, PushAttempts, push, requeue[i..])
                  == mine + Followups(fate, n, PushAttempts, push, requeue)
      {
        FollowupsStep(fate, sent, PushAttempts, push, requeue, i, Mine(id, cluster.log));
        NextPush(id, rest, requeue, i, cluster.st.requeue);
        if push { PushOne(requeue[i]); } else { DropOne(requeue[i]); }
      }
    }

    /**
      Both sweeps in one transaction. Sweep 1 leaves the deferred versions alone
      and sweep 2 takes every stuck processing row.
    */
    method SweepTransaction(deferred: set<VersionId>) returns (requeue: seq<Push>, swept: nat, ghost order: seq<VersionId>)
      requires cluster.Valid()
      modifies cluster
      ensures cluster.Valid() && cluster.Grown() && cluster.log == old(cluster.log) + Sweeps(id, order)
      ensures SweptRows(id, old(cluster.st), cluster.st, AllDue(old(cluster.st).db, deferred), order, requeue)
      ensures swept == |order|
    {
      ghost var s := cluster.st;
      DueIsStuck(s.db, deferred);
      var pending := StuckPending(cluster.st.db, deferred);
      var first, second;
      ghost var order1, order2;
      first, order1 := SweepRows(pending);
      ghost var mid := cluster.st;
      SecondSelect(s.db, mid.db, deferred);
      var processing := StuckProcessing(cluster.st.db);
      second, order2 := SweepRows(processing);
      requeue, order, swept := first + second, order1 + order2, |pending| + |processing|;
      SweepsConcat(id, old(cluster.log), order1, order2, order);
      SweptBoth(id, s, mid, cluster.st, pending, processing, order1, order2, first, second, order, requeue);
    }

    /** The database part of the cycle, after the reaper. */
    method SweepPhase(reaped: nat, deferred: set<VersionId>, ghost before: seq<Action>)
      returns (swept: nat, ghost order: seq<VersionId>, ghost at: nat, ghost to: nat)
      requires cluster.Valid() && Settled() && Mine(id, cluster.log) == Mine(id, before)
      modifies cluster, this`totalSwept, this`sent
      ensures cluster.Valid() && cluster.Grown() && Settled()
      ensures |old(cluster.log)| <= at
      ensures SweptAt(cluster.states, cluster.log, before, id, fate, old(sent), deferred, order, at, to)
      ensures swept == Reported(fate, old(sent), reaped, |order|)
      ensures totalSwept == old(totalSwept) + if fate(old(sent)).Answered? then swept else 0
    {
      Yield();
      at, to, order := |cluster.log|, |cluster.log|, [];
      var begun, committed := fate(sent), fate(sent + 1);
      sent := sent + 1;
      if !begun.Answered? { return reaped, [], at, at; }
      sent := sent + 1;
      if committed.Unreached? { return 0, [], at, at; }
      var count;
      count, order, to := SweepAndPush(deferred, committed.Answered?, before);
      swept := if committed.Answered? then reaped + count else 0;
      totalSwept := totalSwept + swept;
    }

    /** The transaction, and what follows it. */
    method SweepAndPush(deferred: set<VersionId>, committed: bool, ghost before: seq<Action>)
      returns (count: nat, ghost order: seq<VersionId>, ghost to: nat)
      requires cluster.Valid() && Settled() && Mine(id, cluster.log) == Mine(id, before)
      modifies cluster, this`sent
      ensures cluster.Valid() && cluster.Grown() && Settled() && count == |order|
      ensures Executed(cluster.states, cluster.log, before, id, deferred, order, |old(cluster.log)|, to,
                       Followups(fate, old(sent), PushAttempts, committed, PushesFor(id, old(cluster.st).db, order)))
    {
      ghost var s, at := cluster.st, |cluster.log|;
      var requeue;
      requeue, count, order := SweepTransaction(deferred);
      ghost var s', states, log := cluster.st, cluster.states, cluster.log;
      to := |log|;
      PushesAreOwn(id, s.db, order);
      Discharge(requeue, committed, s.requeue);
      ghost var followups := Followups(fate, old(sent), PushAttempts, committed, requeue);
      SweepStands(s, s', old(cluster.log), states, log, cluster.states, cluster.log, before, id, deferred, order, requeue, followups);
    }

    /**
      The whole cycle. When it ends, none of this scheduler's pushes is left
      outstanding, and what it did and spared is as `Cycle` says.
    */
    method SweepCycle(keys: seq<ProcKey>)
      returns (swept: nat, ghost visits: seq<Visit>, ghost order: seq<VersionId>, ghost at: nat, ghost to: nat)
      requires cluster.Valid() && Settled()
      modifies cluster, this`totalSwept, this`sent
      ensures cluster.Valid() && cluster.Grown() && Settled()
      ensures Cycle(cluster.states, cluster.log, old(cluster.log), id, fate, old(sent), keys, visits, order, at, to, swept)
    {
      var reaped, deferred;
      reaped, deferred, visits := ReapOrphans(keys);
      ghost var states, log := cluster.states, cluster.log;
      swept, order, at, to := SweepPhase(reaped, deferred, old(cluster.log));
      CycleHolds(cluster.origin, states, log, cluster.states, cluster.log, old(cluster.log), id, fate, old(sent), keys,
                 visits, deferred, order, at, to, swept);
    }
  }

  /** What sweep 1 did cannot make a row match the SELECT of sweep 2. */
  lemma SecondSelect(db: Db, mid: Db, deferred: set<VersionId>)
    requires SweptExactly(db, mid, StuckPending(db, deferred))
    ensures StuckProcessing(mid) == StuckProcessing(db)
  {
    forall v ensures v in StuckProcessing(mid) <==> v in StuckProcessing(db) {
      if v in db.rows {
        assert mid.rows[v] == if v in StuckPending(db, deferred) then db.Swept(v).(updatedAt := db.now) else db.rows[v];
      }
    }
  }

  lemma SweptTwice(db: Db, mid: Db, db': Db, xs: set<VersionId>, ys: set<VersionId>)
    requires SweptExactly(db, mid, xs) && SweptExactly(mid, db', ys) && xs !! ys
    ensures SweptExactly(db, db', xs + ys)
  {
    forall v | v in db.rows ensures db'.rows[v] == if v in xs + ys then db.Swept(v).(updatedAt := db.now) else db.rows[v] {
      if v in ys { assert mid.rows[v] == db.rows[v] && mid.Swept(v) == db.Swept(v); }
    }
  }
}
