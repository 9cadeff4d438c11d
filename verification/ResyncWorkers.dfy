/** The two programs that write one document's index payloads, on a store others keep changing. */
module ResyncWorkers {
  import opened Wrappers
  import opened Collections
  import opened AclScope
  import opened ResyncProtocol
  import opened ResyncTruth

  /** `states[i]` is the state after the first `i` actions. */
  ghost predicate Recorded(origin: State, log: seq<Action>, states: seq<State>)
    requires origin.history != []
  {
    && |states| == |log| + 1
    && forall i {:trigger Run(origin, log[..i])} :: 0 <= i <= |log| ==> states[i] == Run(origin, log[..i])
  }

  lemma RecordedMore(origin: State, log: seq<Action>, states: seq<State>, a: Action)
    requires origin.history != [] && Recorded(origin, log, states) && states[|log|].history != []
    ensures Recorded(origin, log + [a], states + [Step(states[|log|], a)])
  {
    var log', states' := log + [a], states + [Step(states[|log|], a)];
    assert log[..|log|] == log;
    RunThen(origin, log, a);
    forall i | 0 <= i <= |log'| ensures states'[i] == Run(origin, log'[..i]) {
      if i <= |log| {
        assert log'[..i] == log[..i];
      } else {
        assert log'[..i] == log';
      }
    }
  }

  lemma RunSince(origin: State, log: seq<Action>, states: seq<State>, n: nat)
    requires origin.history != [] && Recorded(origin, log, states) && n <= |log|
    ensures states[n].history != [] && states[|log|] == Run(states[n], log[n..])
  {
    assert states[|log|] == Run(origin, log[..|log|]);
    assert states[n] == Run(origin, log[..n]);
    assert log[..|log|] == log[..n] + log[n..];
    RunConcat(origin, log[..n], log[n..]);
  }

  class DocumentStore {
    var st: State
    ghost const origin: State
    ghost var log: seq<Action>
    ghost var states: seq<State>

    ghost predicate Valid()
      reads this
    {
      && Init(origin) && Recorded(origin, log, states) && states[|log|] == st && st.history != []
    }

    /** What happened stays what happened. */
    twostate predicate Grown()
      reads this
    {
      old(log) <= log && old(states) <= states && old(st.drifts) <= st.drifts
    }

    constructor (acl: DocAcl, columns: map<ChunkId, set<UnitId>>, active: set<ChunkId>)
      ensures Valid() && log == [] && st.columns == columns && st.active == active && st.history == [acl]
    {
      var s := State([acl], 0, columns, active, {}, map[], None, map[], 0, 0, {});
      st, origin, log, states := s, s, [], [s];
      new;
      assert log[..0] == [];
    }

    method Do(a: Action)
      requires Valid()
      modifies this
      ensures Valid() && Grown() && log == old(log) + [a] && st == Step(old(st), a)
    {
      RecordedMore(origin, log, states, a);
      StepDrifts(st, a);
      st := Step(st, a);
      log := log + [a];
      states := states + [st];
    }

    /** Everyone but `me` takes any number of steps. */
    method Interfere(me: WorkerId)
      requires Valid()
      modifies this
      ensures Valid() && old(log) <= log && old(states) <= states
      ensures forall i :: |old(log)| <= i < |log| ==> log[i].Actor() != Some(me)
    {
      // The caller may rely on nothing beyond the postcondition.
    }

    lemma Safe()
      requires Valid()
      ensures Inv(st)
    {
      InitHasInv(origin);
      RunKeepsInv(origin, log);
      assert log[..|log|] == log;
      assert states[|log|] == Run(origin, log[..|log|]);
    }

    /** The state reached since a past one is reached from it by the rest of the log. */
    lemma Since(n: nat)
      requires Valid() && n <= |log|
      ensures states[n].history != [] && st == Run(states[n], log[n..])
    {
      RunSince(origin, log, states, n);
    }
  }

  lemma {:induction false} OthersLeaveWorker(s: State, acts: seq<Action>, w: WorkerId)
    requires s.history != [] && forall i :: 0 <= i < |acts| ==> acts[i].Actor() != Some(w)
    ensures Run(s, acts).PcOf(w) == s.PcOf(w)
  {
    if acts != [] {
      OthersLeaveWorker(s, acts[..|acts| - 1], w);
      StepLeavesWorker(Run(s, acts[..|acts| - 1]), acts[|acts| - 1], w);
    }
  }

  lemma StepLeavesWorker(s: State, a: Action, w: WorkerId)
    requires s.history != [] && a.Actor() != Some(w)
    ensures Step(s, a).PcOf(w) == s.PcOf(w)
  {
  }

  datatype Outcome = Completed | Superseded

  // ---- What a call did ----

  /** The collections that hold recorded points of active chunks. */
  function CollectionsOf(s: State): set<ModelId> {
    set k | k in s.recorded && k.chunk in s.active :: k.model
  }

  /** Where the commands of a resync are in the log, and the collections it patched, in order. */
  datatype Trace = Trace(
    lockAt: nat, versionAt: nat, scopeAt: nat, collectAt: nat, order: seq<ModelId>, patches: seq<nat>, commitAt: nat)

  ghost predicate InRange(x: Trace, states: seq<State>) {
    x.lockAt < |states| && x.versionAt < |states| && x.collectAt < |states| && x.commitAt < |states|
  }

  /** The i-th collection was patched by an answered command, counted from number `n` on. */
  ghost predicate PatchedAt(log: seq<Action>, id: WorkerId, fate: nat -> Fate, stores: set<ModelId>, n: nat, at: nat, model: ModelId, i: nat) {
    at < |log| && log[at] == Patch(id, model) && model in stores && fate(n + i).Answered?
  }

  ghost predicate AllPatched(
    log: seq<Action>, id: WorkerId, fate: nat -> Fate, stores: set<ModelId>, n: nat, since: nat, order: seq<ModelId>, patches: seq<nat>)
  {
    && |patches| == |order| && Distinct(order)
    && forall i {:trigger patches[i]} :: 0 <= i < |order| ==>
         since < patches[i] && PatchedAt(log, id, fate, stores, n, patches[i], order[i], i)
  }

  /** The end of a resync, whose column refresh has command number `n`: a commit, or an error at the first command without an answer. */
  ghost predicate Closed(
    r: Result<Outcome, ()>, x: Trace, states: seq<State>, log: seq<Action>, id: WorkerId, fate: nat -> Fate, n: nat, to: nat)
  {
    if !fate(n).Answered? then r.Err? && to == n + 1
    else if !fate(n + 1).Answered? then r.Err? && to == n + 2
    else if !fate(n + 2).Answered? then r.Err? && to == n + 3
    else
      && to == n + 3 && x.collectAt < x.commitAt < |log| && x.commitAt < |states| && x.versionAt < |states|
      && log[x.commitAt] == CommitResync(id)
      && r == Ok(if states[x.commitAt].AclVersion() == states[x.versionAt].AclVersion() then Completed else Superseded)
  }

  /** The listed collections are patched one after another: an error at the first without a store or an answer, otherwise the commit. */
  ghost predicate PatchPart(
    collections: set<ModelId>, r: Result<Outcome, ()>, x: Trace, states: seq<State>, log: seq<Action>, id: WorkerId, fate: nat -> Fate,
    stores: set<ModelId>, n: nat, to: nat)
  {
    && AllPatched(log, id, fate, stores, n, x.collectAt, x.order, x.patches)
    && (forall m :: m in x.order ==> m in collections)
    && var next := n + |x.order|;
       if forall m :: m in collections ==> m in x.order then Closed(r, x, states, log, id, fate, next, to)
       else r.Err? && ((to == next && !(collections <= stores)) || (to == next + 1 && !fate(next).Answered?))
  }

  ghost predicate WritePart(
    r: Result<Outcome, ()>, x: Trace, states: seq<State>, log: seq<Action>, id: WorkerId, fate: nat -> Fate, stores: set<ModelId>,
    n: nat, to: nat)
  {
    if !fate(n).Answered? then r.Err? && to == n + 1
    else
      && x.scopeAt < x.collectAt < |log| && x.collectAt < |states| && log[x.collectAt] == Collect(id)
      && PatchPart(CollectionsOf(states[x.collectAt]), r, x, states, log, id, fate, stores, n + 1, to)
  }

  ghost predicate ScopePart(
    r: Result<Outcome, ()>, x: Trace, states: seq<State>, log: seq<Action>, id: WorkerId, fate: nat -> Fate, stores: set<ModelId>,
    n: nat, to: nat)
  {
    if !fate(n).Answered? then r.Err? && to == n + 1
    else x.versionAt < x.scopeAt < |log| && log[x.scopeAt] == ReadScope(id) && WritePart(r, x, states, log, id, fate, stores, n + 1, to)
  }

  /** An event older than the version read under the lock is superseded. */
  ghost predicate VersionPart(
    r: Result<Outcome, ()>, x: Trace, states: seq<State>, log: seq<Action>, id: WorkerId, fate: nat -> Fate, stores: set<ModelId>,
    event: nat, n: nat, to: nat)
  {
    if !fate(n).Answered? then r.Err? && to == n + 1
    else
      && x.lockAt < x.versionAt < |log| && x.versionAt < |states| && log[x.versionAt] == ReadVersion(id)
      && if event < states[x.versionAt].AclVersion() then r == Ok(Superseded) && to == n + 1
         else ScopePart(r, x, states, log, id, fate, stores, n + 1, to)
  }

  /**
    A resync whose first command has number `n`, as the log has it: lock,
    version, scope, list of points, patches, commit; an error if the lock was
    held, or at the first command without an answer.
  */
  ghost predicate ResyncedAs(
    r: Result<Outcome, ()>, x: Trace, states: seq<State>, log: seq<Action>, id: WorkerId, fate: nat -> Fate, stores: set<ModelId>,
    event: nat, n: nat, to: nat)
  {
    && InRange(x, states)
    && if !fate(n).Answered? || states[x.lockAt].lock.Some? then r.Err? && to == n + 1
       else
         && x.lockAt < |log| && log[x.lockAt] == LockForResync(id, event)
         && VersionPart(r, x, states, log, id, fate, stores, event, n + 1, to)
  }

  /** Some command of the call got no answer. */
  ghost predicate Unanswered(fate: nat -> Fate, n: nat, to: nat) {
    exists i :: n <= i < to && !fate(i).Answered?
  }

  /**
    Each outcome exactly: an error means that the lock was held, a collection had
    no store, or a command got no answer; superseded means that the version read
    under the lock was newer than the event, or no longer current at the commit;
    completed means that it was still current at this worker's commit.
  */
  lemma OutcomesAreExact(
    r: Result<Outcome, ()>, x: Trace, states: seq<State>, log: seq<Action>, id: WorkerId, fate: nat -> Fate, stores: set<ModelId>,
    event: nat, n: nat, to: nat)
    requires ResyncedAs(r, x, states, log, id, fate, stores, event, n, to)
    ensures r.Err? <==>
              || states[x.lockAt].lock.Some?
              || Unanswered(fate, n, to)
              || (event >= states[x.versionAt].AclVersion() && !(CollectionsOf(states[x.collectAt]) <= stores))
    ensures r == Ok(Superseded) ==>
              || event < states[x.versionAt].AclVersion()
              || states[x.commitAt].AclVersion() != states[x.versionAt].AclVersion()
    ensures r == Ok(Completed) ==>
              && event >= states[x.versionAt].AclVersion() == states[x.commitAt].AclVersion()
              && x.commitAt < |log| && log[x.commitAt] == CommitResync(id)
  {
    if r.Ok? {
      OkIsAnswered(r, x, states, log, id, fate, stores, event, n, to);
    }
  }

  lemma OkIsAnswered(
    r: Result<Outcome, ()>, x: Trace, states: seq<State>, log: seq<Action>, id: WorkerId, fate: nat -> Fate, stores: set<ModelId>,
    event: nat, n: nat, to: nat)
    requires ResyncedAs(r, x, states, log, id, fate, stores, event, n, to) && r.Ok?
    ensures states[x.lockAt].lock.None? && !Unanswered(fate, n, to)
    ensures event >= states[x.versionAt].AclVersion() ==> CollectionsOf(states[x.collectAt]) <= stores
  {
    if event >= states[x.versionAt].AclVersion() {
      AllAnswered(log, id, fate, stores, n + 4, x.collectAt, x.order, x.patches);
      assert forall m :: m in CollectionsOf(states[x.collectAt]) ==> m in x.order;
    }
  }

  lemma AllAnswered(
    log: seq<Action>, id: WorkerId, fate: nat -> Fate, stores: set<ModelId>, n: nat, since: nat, order: seq<ModelId>, patches: seq<nat>)
    requires AllPatched(log, id, fate, stores, n, since, order, patches)
    ensures forall i :: n <= i < n + |order| ==> fate(i).Answered?
    ensures forall m :: m in order ==> m in stores
  {
    forall i | n <= i < n + |order| ensures fate(i).Answered? {
      assert PatchedAt(log, id, fate, stores, n, patches[i - n], order[i - n], i - n);
    }
    forall m | m in order ensures m in stores {
      var i :| 0 <= i < |order| && order[i] == m;
      assert PatchedAt(log, id, fate, stores, n, patches[i], order[i], i);
    }
  }

  /** Where the commands of an index write are in the log. */
  datatype IngestTrace = IngestTrace(lockAt: nat, refreshAt: nat, upsertAt: nat, commitAt: nat)

  /** The part of an index write from the upsert on. */
  ghost predicate UpsertedAs(
    r: Result<Outcome, ()>, upsertAt: nat, commitAt: nat, states: seq<State>, log: seq<Action>, id: WorkerId, fate: nat -> Fate,
    points: map<PointKey, Payload>, n: nat, to: nat)
  {
    if !fate(n).Answered? then r.Err? && to == n + 1
    else
      && upsertAt < |log| && upsertAt + 1 < |states| && log[upsertAt] == Upsert(id)
      && states[upsertAt + 1].points == states[upsertAt].points + points
      && if !fate(n + 1).Answered? then r.Err? && to == n + 2
         else
           && to == n + 3
           && if !fate(n + 2).Answered? then r.Err?
              else r == Ok(Completed) && upsertAt < commitAt < |log| && log[commitAt] == CommitIngest(id)
  }

  ghost predicate RenewPart(
    r: Result<Outcome, ()>, x: IngestTrace, states: seq<State>, log: seq<Action>, id: WorkerId, fate: nat -> Fate,
    points: map<PointKey, Payload>, n: nat, to: nat)
  {
    if !fate(n).Answered? then r.Err? && to == n + 1
    else
      && x.lockAt < x.refreshAt < |log| && x.refreshAt < |states| && log[x.refreshAt] == Refresh(id)
      && x.refreshAt < x.upsertAt && states[x.refreshAt].history != []
      && UpsertedAs(r, x.upsertAt, x.commitAt, states, log, id, fate,
                    Reread(points, states[x.refreshAt].columns, states[x.refreshAt].Current().owner), n + 1, to)
  }

  /**
    An index write whose first command has number `n`, as the log has it: an
    error if the lock was held or at the first command without an answer;
    otherwise the points went in with the access fields that columns and document
    had under the lock, and the commit recorded them.
  */
  ghost predicate IngestedAs(
    r: Result<Outcome, ()>, x: IngestTrace, states: seq<State>, log: seq<Action>, id: WorkerId, fate: nat -> Fate,
    points: map<PointKey, Payload>, n: nat, to: nat)
  {
    && x.lockAt < |states|
    && if !fate(n).Answered? || states[x.lockAt].lock.Some? then r.Err? && to == n + 1
       else
         && x.lockAt < |log| && log[x.lockAt] == LockForIngest(id)
         && RenewPart(r, x, states, log, id, fate, points, n + 1, to)
  }

  /** An index write fails exactly when the lock was held or a command got no answer. */
  lemma IngestFailsIff(
    r: Result<Outcome, ()>, x: IngestTrace, states: seq<State>, log: seq<Action>, id: WorkerId, fate: nat -> Fate,
    points: map<PointKey, Payload>, n: nat, to: nat)
    requires IngestedAs(r, x, states, log, id, fate, points, n, to)
    ensures r.Err? <==> states[x.lockAt].lock.Some? || Unanswered(fate, n, to)
    ensures r.Ok? ==> r == Ok(Completed) && log[x.commitAt] == CommitIngest(id)
  {
  }

  // ---- The workers ----

  /**
    `fate(i)` is how the i-th command this worker sends will go, and `stores`
    the collections this deployment serves.
  */
  class Worker {
    const store: DocumentStore
    const id: WorkerId
    const fate: nat -> Fate
    const stores: set<ModelId>
    var sent: nat

    constructor (store: DocumentStore, id: WorkerId, fate: nat -> Fate, stores: set<ModelId>)
      ensures this.store == store && this.id == id && this.fate == fate && this.stores == stores && sent == 0
    {
      this.store, this.id, this.fate, this.stores, sent := store, id, fate, stores, 0;
    }

    method Yield()
      requires store.Valid()
      modifies store
      ensures store.Valid() && store.Grown() && store.st.PcOf(id) == old(store.st).PcOf(id)
    {
      store.Interfere(id);
      store.Since(|old(store.log)|);
      DriftsGrow(old(store.st), store.log[|old(store.log)|..]);
      OthersLeaveWorker(old(store.st), store.log[|old(store.log)|..], id);
    }

    /** Give up the transaction; the lock goes with it. */
    method Rollback()
      requires store.Valid()
      modifies store
      ensures store.Valid() && store.Grown() && store.st.PcOf(id).Idle?
    {
      store.Do(Abort(id));
    }

    /** Begin and take the document's lock. */
    method Lock(event: nat) returns (locked: bool, ghost at: nat)
      requires store.Valid() && store.st.PcOf(id).Idle?
      modifies store, this`sent
      ensures store.Valid() && store.Grown() && sent == old(sent) + 1 && |old(store.log)| <= at < |store.states|
      ensures locked == (fate(old(sent)).Answered? && store.states[at].lock.None?)
      ensures if locked then at < |store.log| && store.log[at] == LockForResync(id, event) && store.st.PcOf(id) == ResyncLocked(event)
              else store.st.PcOf(id).Idle?
    {
      Yield();
      at := |store.log|;
      locked := fate(sent).Answered? && store.st.lock.None?;
      sent := sent + 1;
      if locked { store.Do(LockForResync(id, event)); }
    }

    /** Read version and owner; an event that a newer version superseded ends here. */
    method ReadVersion(event: nat) returns (superseded: Result<bool, ()>, ghost at: nat)
      requires store.Valid() && store.st.PcOf(id) == ResyncLocked(event)
      modifies store, this`sent
      ensures store.Valid() && store.Grown() && sent == old(sent) + 1 && |old(store.log)| <= at < |store.log| < |store.states|
      ensures superseded == if !fate(old(sent)).Answered? then Err(()) else Ok(event < store.states[at].AclVersion())
      ensures superseded.Ok? ==> store.log[at] == ResyncProtocol.Action.ReadVersion(id)
      ensures if superseded == Ok(false) then store.st.PcOf(id).VersionRead? && store.st.PcOf(id).version == store.states[at].AclVersion()
              else store.st.PcOf(id).Idle?
    {
      Yield();
      at := |store.log|;
      var f := fate(sent);
      sent := sent + 1;
      if !f.Answered? {
        Rollback();
        return Err(()), at;
      }
      superseded := Ok(event < store.st.AclVersion());
      store.Do(ResyncProtocol.Action.ReadVersion(id));
    }

    /** Compute the scope from the grants as they are now. */
    method ReadScope() returns (ok: bool, ghost at: nat)
      requires store.Valid() && store.st.PcOf(id).VersionRead?
      modifies store, this`sent
      ensures store.Valid() && store.Grown() && sent == old(sent) + 1 && |old(store.log)| <= at < |store.log| < |store.states|
      ensures ok == fate(old(sent)).Answered?
      ensures ok ==> store.log[at] == ResyncProtocol.Action.ReadScope(id)
      ensures if ok then
                var pc := store.st.PcOf(id);
                pc.ScopeRead? && pc.version == old(store.st.PcOf(id).version) && old(store.st.drifts) <= pc.drifts
              else store.st.PcOf(id).Idle?
    {
      Yield();
      at := |store.log|;
      ok := fate(sent).Answered?;
      sent := sent + 1;
      if ok { store.Do(ResyncProtocol.Action.ReadScope(id)); } else { Rollback(); }
    }

    /** List the recorded points of the active chunks. */
    method Collect() returns (collections: Option<set<ModelId>>, ghost at: nat)
      requires store.Valid() && store.st.PcOf(id).ScopeRead?
      modifies store, this`sent
      ensures store.Valid() && store.Grown() && sent == old(sent) + 1 && |old(store.log)| <= at < |store.log| < |store.states|
      ensures collections == if fate(old(sent)).Answered? then Some(CollectionsOf(store.states[at])) else None
      ensures collections.Some? ==> store.log[at] == ResyncProtocol.Action.Collect(id)
      ensures if collections.Some? then
                var pc, was := store.st.PcOf(id), old(store.st.PcOf(id));
                && pc.Patching? && pc.version == was.version && pc.drifts == was.drifts
                && forall k :: k in pc.todo ==> k.model in collections.value
              else store.st.PcOf(id).Idle?
    {
      Yield();
      at := |store.log|;
      var f := fate(sent);
      sent := sent + 1;
      if !f.Answered? {
        Rollback();
        return None, at;
      }
      collections := Some(CollectionsOf(store.st));
      store.Do(ResyncProtocol.Action.Collect(id));
    }

    /** `set_payload` collection by collection; a collection without a store, or a call without an answer, stops it. */
    method PatchCollections(collections: set<ModelId>) returns (served: bool, ghost order: seq<ModelId>, ghost patches: seq<nat>)
      requires store.Valid() && store.st.PcOf(id).Patching? && store.log != []
      requires forall k :: k in store.st.PcOf(id).todo ==> k.model in collections
      modifies store, this`sent
      ensures store.Valid() && store.Grown()
      ensures var pc, was := store.st.PcOf(id), old(store.st.PcOf(id));
              && pc.Patching? && pc.version == was.version && pc.drifts == was.drifts && (served ==> pc.todo == {})
      ensures AllPatched(store.log, id, fate, stores, old(sent), |old(store.log)| - 1, order, patches)
      ensures forall m :: m in order ==> m in collections
      ensures served <==> forall m :: m in collections ==> m in order
      ensures if served then sent == old(sent) + |order|
              else (sent == old(sent) + |order| && !(collections <= stores))
                   || (sent == old(sent) + |order| + 1 && !fate(old(sent) + |order|).Answered?)
    {
      var left := collections;
      order, patches := [], [];
      ghost var n := sent;
      while left != {}
        invariant store.Valid() && store.Grown()
        invariant var pc, was := store.st.PcOf(id), old(store.st.PcOf(id));
                  pc.Patching? && pc.version == was.version && pc.drifts == was.drifts && forall k :: k in pc.todo ==> k.model in left
        invariant left <= collections && forall m :: m in order <==> m in collections && m !in left
        invariant sent == n + |order|
        invariant AllPatched(store.log, id, fate, stores, n, |old(store.log)| - 1, order, patches)
        decreases |left|
      {
        var model :| model in left;
        if model !in stores { return false, order, patches; }
        var ok;
        ghost var at, log := 0, store.log;
        ok, at := PatchOne(model);
        PatchedStay(log, store.log, id, fate, stores, n, |old(store.log)| - 1, order, patches);
        if !ok { return false, order, patches; }
        PatchedMore(store.log, id, fate, stores, n, |old(store.log)| - 1, order, patches, model, at);
        order, patches := order + [model], patches + [at];
        left := left - {model};
      }
      served := true;
    }

    method PatchOne(model: ModelId) returns (ok: bool, ghost at: nat)
      requires store.Valid() && store.st.PcOf(id).Patching?
      modifies store, this`sent
      ensures store.Valid() && store.Grown() && sent == old(sent) + 1 && ok == fate(old(sent)).Answered?
      ensures var pc, was := store.st.PcOf(id), old(store.st.PcOf(id));
              && pc.Patching? && pc.version == was.version && pc.drifts == was.drifts && pc.todo <= was.todo
              && (ok ==> forall k :: k in pc.todo ==> k.model != model)
      ensures |old(store.log)| <= at && (ok ==> at < |store.log| && store.log[at] == Patch(id, model))
    {
      Yield();
      at := |store.log|;
      var f := fate(sent);
      sent := sent + 1;
      ok := f.Answered?;
      if !f.Unreached? { store.Do(Patch(id, model)); }
    }

    /** Refresh the columns and compare-and-set in one commit. */
    method Commit(ghost x: Trace) returns (r: Result<Outcome, ()>, ghost at: nat)
      requires store.Valid() && store.st.PcOf(id).Patching? && store.st.PcOf(id).todo == {}
      requires x.versionAt < |store.states| && store.states[x.versionAt].AclVersion() == store.st.PcOf(id).version
      requires x.collectAt < |store.log|
      modifies store, this`sent
      ensures store.Valid() && store.Grown() && store.st.PcOf(id).Idle? && |old(store.log)| <= at < |store.states|
      ensures Closed(r, x.(commitAt := at), store.states, store.log, id, fate, old(sent), sent)
      ensures r == Ok(Completed) ==> IsSynced(store.st) && store.st.syncedAt == old(store.st.PcOf(id).drifts)
    {
      Yield();
      at := |store.log|;
      var column, cas, commit := fate(sent), fate(sent + 1), fate(sent + 2);
      sent := sent + if !column.Answered? then 1 else if !cas.Answered? then 2 else 3;
      if !column.Answered? || !cas.Answered? || commit.Unreached? {
        Rollback();
        return Err(()), at;
      }
      var advanced := store.st.PcOf(id).version == store.st.AclVersion();
      store.Do(CommitResync(id));
      r := if commit.Answered? then Ok(if advanced then Completed else Superseded) else Err(());
    }

    /** Patch every collection, then refresh the columns and compare-and-set in one commit. */
    method PatchPhase(collections: set<ModelId>, ghost x: Trace) returns (r: Result<Outcome, ()>, ghost y: Trace)
      requires store.Valid() && store.st.PcOf(id).Patching? && InRange(x, store.states) && x.collectAt < |store.log|
      requires forall k :: k in store.st.PcOf(id).todo ==> k.model in collections
      requires store.states[x.versionAt].AclVersion() == store.st.PcOf(id).version
      modifies store, this`sent
      ensures store.Valid() && store.Grown() && store.st.PcOf(id).Idle?
      ensures InRange(y, store.states) && y.collectAt == x.collectAt && y.scopeAt == x.scopeAt
      ensures y.versionAt == x.versionAt && y.lockAt == x.lockAt
      ensures PatchPart(collections, r, y, store.states, store.log, id, fate, stores, old(sent), sent)
      ensures r == Ok(Completed) ==> IsSynced(store.st) && store.st.syncedAt == old(store.st.PcOf(id).drifts)
    {
      var served;
      ghost var order, patches;
      served, order, patches := PatchCollections(collections);
      PatchedSince(store.log, id, fate, stores, old(sent), |old(store.log)| - 1, x.collectAt, order, patches);
      y := x.(order := order, patches := patches);
      ghost var log := store.log;
      if !served {
        Rollback();
        r := Err(());
      } else {
        ghost var commitAt;
        r, commitAt := Commit(y);
        y := y.(commitAt := commitAt);
      }
      PatchedStay(log, store.log, id, fate, stores, old(sent), x.collectAt, order, patches);
    }

    /** List the points, then write them. */
    method WritePhase(ghost x: Trace) returns (r: Result<Outcome, ()>, ghost y: Trace)
      requires store.Valid() && store.st.PcOf(id).ScopeRead? && InRange(x, store.states) && x.scopeAt < |store.log|
      requires store.states[x.versionAt].AclVersion() == store.st.PcOf(id).version
      modifies store, this`sent
      ensures store.Valid() && store.Grown() && store.st.PcOf(id).Idle?
      ensures InRange(y, store.states) && y.scopeAt == x.scopeAt && y.versionAt == x.versionAt && y.lockAt == x.lockAt
      ensures WritePart(r, y, store.states, store.log, id, fate, stores, old(sent), sent)
      ensures r == Ok(Completed) ==> IsSynced(store.st) && store.st.syncedAt == old(store.st.PcOf(id).drifts)
    {
      var collections;
      ghost var collectAt;
      collections, collectAt := Collect();
      y := x.(collectAt := collectAt);
      if collections.None? { return Err(()), y; }
      r, y := PatchPhase(collections.value, y);
    }

    /** Compute the scope, then write. */
    method ScopePhase(ghost x: Trace) returns (r: Result<Outcome, ()>, ghost y: Trace)
      requires store.Valid() && store.st.PcOf(id).VersionRead? && InRange(x, store.states) && x.versionAt < |store.log|
      requires store.states[x.versionAt].AclVersion() == store.st.PcOf(id).version
      modifies store, this`sent
      ensures store.Valid() && store.Grown() && store.st.PcOf(id).Idle?
      ensures InRange(y, store.states) && y.versionAt == x.versionAt && y.lockAt == x.lockAt
      ensures ScopePart(r, y, store.states, store.log, id, fate, stores, old(sent), sent)
      ensures r == Ok(Completed) ==> IsSynced(store.st) && store.st.syncedAt >= old(store.st.drifts)
    {
      var ok;
      ghost var at;
      ok, at := ReadScope();
      y := x.(scopeAt := at);
      if !ok { return Err(()), y; }
      r, y := WritePhase(y);
    }

    /** Read the version, then go on unless the event is older. */
    method VersionPhase(event: nat, ghost x: Trace) returns (r: Result<Outcome, ()>, ghost y: Trace)
      requires store.Valid() && store.st.PcOf(id) == ResyncLocked(event) && InRange(x, store.states) && x.lockAt < |store.log|
      modifies store, this`sent
      ensures store.Valid() && store.Grown() && store.st.PcOf(id).Idle?
      ensures InRange(y, store.states) && y.lockAt == x.lockAt
      ensures VersionPart(r, y, store.states, store.log, id, fate, stores, event, old(sent), sent)
      ensures r == Ok(Completed) ==> IsSynced(store.st) && store.st.syncedAt >= old(store.st.drifts)
    {
      var superseded;
      ghost var at;
      superseded, at := ReadVersion(event);
      y := x.(versionAt := at);
      if superseded.Err? { return Err(()), y; }
      if superseded.value { return Ok(Superseded), y; }
      r, y := ScopePhase(y);
    }

    /**
      Process one resync event. The outcome is what the log says of this call's
      commands. `Completed` means the version it read is still current and, unless
      the scope drifted during the call, that the whole index agrees with the
      grants, whatever drifted before.
    */
    method ProcessResync(event: nat) returns (r: Result<Outcome, ()>, ghost x: Trace)
      requires store.Valid() && store.st.PcOf(id).Idle?
      modifies store, this`sent
      ensures store.Valid() && store.Grown() && store.st.PcOf(id).Idle? && |old(store.log)| <= x.lockAt
      ensures ResyncedAs(r, x, store.states, store.log, id, fate, stores, event, old(sent), sent)
      ensures r == Ok(Completed) ==> IsSynced(store.st)
      ensures r == Ok(Completed) && store.st.drifts == old(store.st.drifts) ==> IndexIsTruthful(store.st)
    {
      var locked;
      ghost var at;
      locked, at := Lock(event);
      x := Trace(at, at, at, at, [], [], at);
      if !locked { return Err(()), x; }
      r, x := VersionPhase(event, x);
      if r == Ok(Completed) && store.st.drifts == old(store.st.drifts) {
        store.Safe();
        IndexIsRight();
      }
    }

    lemma IndexIsRight()
      requires store.Valid() && IsFresh(store.st)
      ensures IndexIsTruthful(store.st)
    {
      store.Safe();
      FreshIsTruthful(store.st);
    }

    /** Overwrite the access fields of the prepared points with what was just read. */
    method Overwrite(points: map<PointKey, Payload>, columns: map<ChunkId, set<UnitId>>, owner: UnitId)
      returns (renewed: map<PointKey, Payload>)
      ensures renewed == Reread(points, columns, owner)
    {
      renewed := points;
      var todo := points.Keys;
      while todo != {}
        invariant todo <= points.Keys
        invariant renewed == map k | k in points ::
          if k !in todo && k.chunk in columns then Payload(columns[k.chunk], owner) else points[k]
        decreases |todo|
      {
        var k :| k in todo;
        if k.chunk in columns {
          renewed := renewed[k := Payload(columns[k.chunk], owner)];
        }
        todo := todo - {k};
      }
    }

    /**
      Index a version's chunks: whatever access fields the points were embedded
      with, what is upserted under the lock is what the columns and the document
      said there, and a completed event has every point recorded.
    */
    method ProcessIngest(points: map<PointKey, Payload>) returns (r: Result<Outcome, ()>, ghost x: IngestTrace)
      requires store.Valid() && store.st.PcOf(id).Idle?
      requires forall k :: k in points ==> k.chunk in store.st.columns
      modifies store, this`sent
      ensures store.Valid() && store.Grown() && store.st.PcOf(id).Idle? && |old(store.log)| <= x.lockAt
      ensures IngestedAs(r, x, store.states, store.log, id, fate, points, old(sent), sent)
      ensures r.Ok? ==> points.Keys <= store.st.recorded
      ensures r.Ok? && IsFresh(store.st) ==> IndexIsTruthful(store.st)
    {
      store.Do(Embed(id, points));
      var locked;
      ghost var at;
      locked, at := LockForIngest(points);
      x := IngestTrace(at, at, at, at);
      if !locked {
        Rollback();
        return Err(()), x;
      }
      r, x := RenewPhase(points, x);
      if r.Ok? && IsFresh(store.st) { IndexIsRight(); }
    }

    /** Renew the access fields, then upsert and record. */
    method RenewPhase(points: map<PointKey, Payload>, ghost x: IngestTrace) returns (r: Result<Outcome, ()>, ghost y: IngestTrace)
      requires store.Valid() && store.st.PcOf(id) == IngestLocked(points) && x.lockAt < |store.log|
      modifies store, this`sent
      ensures store.Valid() && store.Grown() && store.st.PcOf(id).Idle? && y.lockAt == x.lockAt
      ensures RenewPart(r, y, store.states, store.log, id, fate, points, old(sent), sent)
      ensures r.Ok? ==> points.Keys <= store.st.recorded
    {
      var renewed;
      ghost var at;
      renewed, at := PrepareUpsert(points);
      y := x.(refreshAt := at);
      if renewed.None? { return Err(()), y; }
      ghost var upsertAt, commitAt;
      r, upsertAt, commitAt := UpsertPhase(renewed.value);
      y := y.(upsertAt := upsertAt, commitAt := commitAt);
    }

    /** Begin and take the document's lock. */
    method LockForIngest(points: map<PointKey, Payload>) returns (locked: bool, ghost at: nat)
      requires store.Valid() && store.st.PcOf(id) == Embedded(points)
      modifies store, this`sent
      ensures store.Valid() && store.Grown() && sent == old(sent) + 1 && |old(store.log)| <= at < |store.states|
      ensures locked == (fate(old(sent)).Answered? && store.states[at].lock.None?)
      ensures locked ==> at < |store.log| && store.log[at] == ResyncProtocol.Action.LockForIngest(id) && store.st.PcOf(id) == IngestLocked(points)
    {
      Yield();
      at := |store.log|;
      locked := fate(sent).Answered? && store.st.lock.None?;
      sent := sent + 1;
      if locked { store.Do(ResyncProtocol.Action.LockForIngest(id)); }
    }

    /** Renew the access fields under the lock. */
    method PrepareUpsert(points: map<PointKey, Payload>) returns (renewed: Option<map<PointKey, Payload>>, ghost at: nat)
      requires store.Valid() && store.st.PcOf(id) == IngestLocked(points)
      modifies store, this`sent
      ensures store.Valid() && store.Grown() && sent == old(sent) + 1 && |old(store.log)| <= at < |store.log| < |store.states|
      ensures store.states[at].history != []
      ensures renewed == if !fate(old(sent)).Answered? then None
                         else Some(Reread(points, store.states[at].columns, store.states[at].Current().owner))
      ensures if renewed.Some? then store.st.PcOf(id) == Refreshed(renewed.value) && store.log[at] == Refresh(id)
              else store.st.PcOf(id).Idle?
    {
      Yield();
      at := |store.log|;
      var f := fate(sent);
      sent := sent + 1;
      if !f.Answered? {
        Rollback();
        return None, at;
      }
      var overwritten := Overwrite(points, store.st.columns, store.st.Current().owner);
      store.Do(Refresh(id));
      renewed := Some(overwritten);
    }

    /** Upsert, then record every point in the same transaction that releases the lock. */
    method UpsertPhase(points: map<PointKey, Payload>) returns (r: Result<Outcome, ()>, ghost upsertAt: nat, ghost commitAt: nat)
      requires store.Valid() && store.st.PcOf(id) == Refreshed(points)
      modifies store, this`sent
      ensures store.Valid() && store.Grown() && store.st.PcOf(id).Idle?
      ensures |old(store.log)| <= upsertAt && |old(store.log)| <= commitAt
      ensures UpsertedAs(r, upsertAt, commitAt, store.states, store.log, id, fate, points, old(sent), sent)
      ensures r.Ok? ==> points.Keys <= store.st.recorded
    {
      var ok;
      ok, upsertAt := UpsertPoints(points);
      commitAt := upsertAt;
      if !ok { return Err(()), upsertAt, commitAt; }
      ghost var states, log := store.states, store.log;
      r, commitAt := RecordPhase(points);
      assert store.states[upsertAt] == states[upsertAt] && store.states[upsertAt + 1] == states[upsertAt + 1];
    }

    /** The upsert; without an answer the transaction is given up, whether or not the points went in. */
    method UpsertPoints(points: map<PointKey, Payload>) returns (ok: bool, ghost at: nat)
      requires store.Valid() && store.st.PcOf(id) == Refreshed(points)
      modifies store, this`sent
      ensures store.Valid() && store.Grown() && sent == old(sent) + 1 && |old(store.log)| <= at && ok == fate(old(sent)).Answered?
      ensures if ok then
                && store.st.PcOf(id) == Upserted(points) && at < |store.log| && at + 1 < |store.states| && store.log[at] == Upsert(id)
                && store.states[at + 1].points == store.states[at].points + points
              else store.st.PcOf(id).Idle?
    {
      Yield();
      at := |store.log|;
      var f := fate(sent);
      sent := sent + 1;
      ok := f.Answered?;
      if !f.Unreached? { store.Do(Upsert(id)); }
      if !ok { Rollback(); }
    }

    /** The bookkeeping rows and the commit. */
    method RecordPhase(points: map<PointKey, Payload>) returns (r: Result<Outcome, ()>, ghost commitAt: nat)
      requires store.Valid() && store.st.PcOf(id) == Upserted(points)
      modifies store, this`sent
      ensures store.Valid() && store.Grown() && store.st.PcOf(id).Idle? && |old(store.log)| <= commitAt
      ensures r == if fate(old(sent)).Answered? && fate(old(sent) + 1).Answered? then Ok(Completed) else Err(())
      ensures sent == old(sent) + if fate(old(sent)).Answered? then 2 else 1
      ensures r.Ok? ==> commitAt < |store.log| && store.log[commitAt] == CommitIngest(id) && points.Keys <= store.st.recorded
    {
      Yield();
      commitAt := |store.log|;
      var rows, commit := fate(sent), fate(sent + 1);
      sent := sent + if rows.Answered? then 2 else 1;
      if !rows.Answered? || commit.Unreached? {
        Rollback();
        return Err(()), commitAt;
      }
      store.Do(CommitIngest(id));
      r := if commit.Answered? then Ok(Completed) else Err(());
    }
  }

  lemma PatchedSince(
    log: seq<Action>, id: WorkerId, fate: nat -> Fate, stores: set<ModelId>, n: nat, since: nat, earlier: nat,
    order: seq<ModelId>, patches: seq<nat>)
    requires AllPatched(log, id, fate, stores, n, since, order, patches) && earlier <= since
    ensures AllPatched(log, id, fate, stores, n, earlier, order, patches)
  {
  }

  lemma PatchedStay(
    log: seq<Action>, log': seq<Action>, id: WorkerId, fate: nat -> Fate, stores: set<ModelId>, n: nat, since: nat,
    order: seq<ModelId>, patches: seq<nat>)
    requires AllPatched(log, id, fate, stores, n, since, order, patches) && log <= log'
    ensures AllPatched(log', id, fate, stores, n, since, order, patches)
  {
  }

  lemma PatchedMore(
    log: seq<Action>, id: WorkerId, fate: nat -> Fate, stores: set<ModelId>, n: nat, since: nat,
    order: seq<ModelId>, patches: seq<nat>, model: ModelId, at: nat)
    requires AllPatched(log, id, fate, stores, n, since, order, patches) && model !in order
    requires since < at && PatchedAt(log, id, fate, stores, n, at, model, |order|)
    ensures AllPatched(log, id, fate, stores, n, since, order + [model], patches + [at])
  {
    var order', patches' := order + [model], patches + [at];
    forall i | 0 <= i < |order'|
      ensures since < patches'[i] && PatchedAt(log, id, fate, stores, n, patches'[i], order'[i], i)
    {
      if i < |order| {
        assert patches'[i] == patches[i] && order'[i] == order[i];
      }
    }
  }
}
