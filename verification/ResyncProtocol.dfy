/**
  How the access scope of one document reaches the vector index. Grant and owner
  changes bump `acl_version`; resync workers rewrite index payloads and advance
  `qdrant_synced_version` by compare-and-set; ingest workers upsert points. Both
  kinds of worker hold the per-document lock while they write, but a resync
  reads the grants on another connection, so only an unchanged version makes
  what it read valid. Changes of the org tree, and grants that lapse, bump
  nothing: the scope drifts under an unchanged version.
*/
module ResyncProtocol {
  import opened Wrappers
  import opened AclScope

  type WorkerId = nat
  type ChunkId = nat
  type ModelId = nat

  /** A point is deterministic in chunk and model; each model has its own collection. */
  datatype PointKey = PointKey(model: ModelId, chunk: ChunkId)

  datatype Payload = Payload(scope: set<UnitId>, owner: UnitId)

  /** Where a worker is inside `process`; every state but the first two holds the lock. */
  datatype Pc =
    | Idle
    | Embedded(points: map<PointKey, Payload>)
    | ResyncLocked(event: nat)
    | VersionRead(version: nat, owner: UnitId)
    | ScopeRead(version: nat, patch: Payload, drifts: nat)
    | Patching(version: nat, patch: Payload, drifts: nat, todo: set<PointKey>)
    | IngestLocked(points: map<PointKey, Payload>)
    | Refreshed(points: map<PointKey, Payload>)
    | Upserted(points: map<PointKey, Payload>)
  {
    predicate HoldsLock() {
      !Idle? && !Embedded?
    }
  }

  /**
    `history` lists the document's access control by version, newest last, so
    `acl_version` is its length. `recorded` is `document_chunk_vectors`. The
    rest is history that decides nothing: `drifts` counts the changes of scope
    that bumped nothing, `syncedAt` is that count when the scope of the synced
    version was read, and `orphans` are points whose upsert was followed by an
    abort before they were ever recorded.
  */
  datatype State = State(
    history: seq<DocAcl>,
    synced: nat,
    columns: map<ChunkId, set<UnitId>>,
    active: set<ChunkId>,
    recorded: set<PointKey>,
    points: map<PointKey, Payload>,
    lock: Option<WorkerId>,
    pcs: map<WorkerId, Pc>,
    drifts: nat,
    syncedAt: nat,
    orphans: set<PointKey>)
  {
    function AclVersion(): nat {
      |history|
    }

    function Current(): DocAcl
      requires history != []
    {
      history[|history| - 1]
    }

    /** What the grants define now. */
    function Truth(): Payload
      requires history != []
    {
      Payload(FetchAccessScopes(Current()), Current().owner)
    }

    function PcOf(w: WorkerId): Pc {
      if w in pcs then pcs[w] else Idle
    }

    function At(w: WorkerId, pc: Pc): State {
      this.(pcs := pcs[w := pc])
    }

    /** End of a transaction: the advisory lock goes with it. */
    function Release(w: WorkerId): State {
      this.(pcs := pcs[w := Idle], lock := None)
    }
  }

  datatype Action =
    | ChangeAcl(acl: DocAcl)
    | Drift(closure: set<Path>, now: int)
    | Embed(w: WorkerId, points: map<PointKey, Payload>)
    | LockForResync(w: WorkerId, event: nat)
    | ReadVersion(w: WorkerId)
    | ReadScope(w: WorkerId)
    | Collect(w: WorkerId)
    | Patch(w: WorkerId, model: ModelId)
    | CommitResync(w: WorkerId)
    | LockForIngest(w: WorkerId)
    | Refresh(w: WorkerId)
    | Upsert(w: WorkerId)
    | CommitIngest(w: WorkerId)
    | Abort(w: WorkerId)
  {
    function Actor(): Option<WorkerId> {
      if ChangeAcl? || Drift? then None else Some(w)
    }
  }

  function Step(s: State, a: Action): State
    requires s.history != []
    ensures Step(s, a).history != []
  {
    match a
    case ChangeAcl(acl) => s.(history := s.history + [acl])
    case Drift(closure, now) => StepDrift(s, closure, now)
    case Embed(w, points) =>
      if s.PcOf(w).Idle? && (forall k :: k in points ==> k.chunk in s.columns) then s.At(w, Embedded(points)) else s
    case LockForResync(w, event) =>
      if s.PcOf(w).Idle? && s.lock.None? then s.At(w, ResyncLocked(event)).(lock := Some(w)) else s
    case ReadVersion(w) =>
      var pc := s.PcOf(w);
      if pc.ResyncLocked? then
        if pc.event < s.AclVersion() then s.Release(w)
        else s.At(w, VersionRead(s.AclVersion(), s.Current().owner))
      else s
    case ReadScope(w) =>
      var pc := s.PcOf(w);
      if pc.VersionRead? then s.At(w, ScopeRead(pc.version, Payload(FetchAccessScopes(s.Current()), pc.owner), s.drifts)) else s
    case Collect(w) =>
      var pc := s.PcOf(w);
      if pc.ScopeRead? then
        s.At(w, Patching(pc.version, pc.patch, pc.drifts, set k | k in s.recorded && k.chunk in s.active))
      else s
    case Patch(w, model) => StepPatch(s, w, model)
    case CommitResync(w) => StepCommitResync(s, w)
    case LockForIngest(w) =>
      var pc := s.PcOf(w);
      if pc.Embedded? && s.lock.None? then s.At(w, IngestLocked(pc.points)).(lock := Some(w)) else s
    case Refresh(w) =>
      var pc := s.PcOf(w);
      if pc.IngestLocked? then s.At(w, Refreshed(Reread(pc.points, s.columns, s.Current().owner))) else s
    case Upsert(w) =>
      var pc := s.PcOf(w);
      if pc.Refreshed? then
        s.At(w, Upserted(pc.points)).(points := s.points + pc.points, orphans := s.orphans - pc.points.Keys)
      else s
    case CommitIngest(w) =>
      var pc := s.PcOf(w);
      if pc.Upserted? then s.Release(w).(recorded := s.recorded + pc.points.Keys) else s
    case Abort(w) =>
      var pc := s.PcOf(w);
      if pc.Upserted? then s.Release(w).(orphans := s.orphans + (pc.points.Keys - s.recorded))
      else if pc.HoldsLock() then s.Release(w)
      else s.At(w, Idle)
  }

  /** The org tree changes, or time passes: the version stays. */
  function StepDrift(s: State, closure: set<Path>, now: int): State
    requires s.history != []
  {
    var acl := s.Current().(closure := closure, now := now);
    s.(history := s.history[..|s.history| - 1] + [acl],
       drifts := if FetchAccessScopes(acl) == FetchAccessScopes(s.Current()) then s.drifts else s.drifts + 1)
  }

  /** `set_payload` on the points of one collection. */
  function StepPatch(s: State, w: WorkerId, model: ModelId): State {
    var pc := s.PcOf(w);
    if pc.Patching? then
      var hit := set k | k in pc.todo && k.model == model;
      s.At(w, pc.(todo := pc.todo - hit))
        .(points := map k | k in s.points :: if k in hit then pc.patch else s.points[k])
    else s
  }

  /** The column refresh and the compare-and-set commit together; the latter only on an unchanged version. */
  function StepCommitResync(s: State, w: WorkerId): State {
    var pc := s.PcOf(w);
    if pc.Patching? && pc.todo == {} then
      s.Release(w).(
        columns := map c | c in s.columns :: pc.patch.scope,
        synced := if pc.version == s.AclVersion() then pc.version else s.synced,
        syncedAt := if pc.version == s.AclVersion() then pc.drifts else s.syncedAt)
    else s
  }

  /** Points built before the embedding, with the access fields of the columns and the document. */
  function Reread(points: map<PointKey, Payload>, columns: map<ChunkId, set<UnitId>>, owner: UnitId): map<PointKey, Payload> {
    map k | k in points :: if k.chunk in columns then Payload(columns[k.chunk], owner) else points[k]
  }

  function Run(s: State, acts: seq<Action>): State
    requires s.history != []
    ensures Run(s, acts).history != []
  {
    if acts == [] then s else Step(Run(s, acts[..|acts| - 1]), acts[|acts| - 1])
  }

  /** One access control version, nothing indexed, nothing synced, nobody at work. */
  ghost predicate Init(s: State) {
    && |s.history| == 1 && s.synced == 0 && s.recorded == {} && s.points == map[] && s.orphans == {}
    && s.lock.None? && s.pcs == map[] && s.drifts == 0 && s.syncedAt == 0
  }

  // ---- Invariants ----

  ghost predicate IsSynced(s: State) {
    s.synced == s.AclVersion()
  }

  /** The synced version is current, and the scope has not drifted since it was read. */
  ghost predicate IsFresh(s: State) {
    IsSynced(s) && s.syncedAt == s.drifts
  }

  /** The lock has one holder, and only the holder is inside its critical section. */
  ghost predicate LockOk(s: State) {
    && (forall w :: w in s.pcs && s.pcs[w].HoldsLock() ==> s.lock == Some(w))
    && (s.lock.Some? ==> s.PcOf(s.lock.value).HoldsLock())
  }

  /** The point carries what the grants define now. */
  ghost predicate Right(s: State, k: PointKey)
    requires s.history != []
  {
    k in s.points && s.points[k] == s.Truth()
  }

  /** Whatever the holder carries is right if its version is still current and the scope has not drifted. */
  ghost predicate PcOk(s: State, pc: Pc)
    requires s.history != []
  {
    match pc
    case Embedded(points) => forall k :: k in points ==> k.chunk in s.columns
    case VersionRead(v, owner) =>
      s.synced <= v <= s.AclVersion() && (v == s.AclVersion() ==> owner == s.Current().owner)
    case ScopeRead(v, patch, d) =>
      && s.synced <= v <= s.AclVersion() && s.syncedAt <= d <= s.drifts
      && (v == s.AclVersion() && d == s.drifts ==> patch == s.Truth())
    case Patching(v, patch, d, todo) =>
      && s.synced <= v <= s.AclVersion() && s.syncedAt <= d <= s.drifts && todo <= s.recorded
      && (v == s.AclVersion() && d == s.drifts ==>
            && patch == s.Truth()
            && (forall k :: k in s.recorded && k.chunk in s.active && k !in todo ==> Right(s, k)))
    case IngestLocked(points) => forall k :: k in points ==> k.chunk in s.columns
    case Refreshed(points) =>
      && (forall k :: k in points ==> k.chunk in s.columns)
      && (IsFresh(s) ==> forall k :: k in points ==> points[k] == s.Truth())
    case Upserted(points) =>
      && points.Keys <= s.points.Keys && points.Keys !! s.orphans
    case _ => true
  }

  ghost predicate PcsOk(s: State)
    requires s.history != []
  {
    forall w :: w in s.pcs ==> PcOk(s, s.pcs[w])
  }

  /** Points come from recorded, aborted or pending upserts. */
  ghost predicate BooksOk(s: State) {
    && s.recorded <= s.points.Keys && s.orphans <= s.points.Keys && s.recorded !! s.orphans
    && s.synced <= s.AclVersion() && s.syncedAt <= s.drifts
    && (forall k :: k in s.points && k !in s.recorded && k !in s.orphans ==> k in Pending(s))
  }

  /** Points the lock holder has upserted and not recorded yet. */
  ghost function Pending(s: State): set<PointKey> {
    if s.lock.Some? && s.PcOf(s.lock.value).Upserted? then s.PcOf(s.lock.value).points.Keys else {}
  }

  /** While fresh, the columns and every point that is not an orphan tell the truth. */
  ghost predicate Truthful(s: State)
    requires s.history != []
  {
    IsFresh(s) ==>
      && (forall c :: c in s.columns ==> s.columns[c] == s.Truth().scope)
      && (forall k :: k in s.points && k.chunk in s.active && k !in s.orphans ==> Right(s, k))
  }

  ghost predicate Inv(s: State) {
    s.history != [] && LockOk(s) && PcsOk(s) && BooksOk(s) && Truthful(s)
  }

  lemma StepKeepsLock(s: State, a: Action)
    requires s.history != [] && LockOk(s)
    ensures LockOk(Step(s, a))
  {
  }

  lemma IngestKeepsBooks(s: State, a: Action)
    requires Inv(s) && (a.Upsert? || a.CommitIngest? || a.Abort?)
    ensures BooksOk(Step(s, a))
  {
    assert PcOk(s, s.PcOf(a.w));
  }

  lemma OthersKeepBooks(s: State, a: Action)
    requires Inv(s) && !a.Upsert? && !a.CommitIngest? && !a.Abort?
    ensures BooksOk(Step(s, a))
  {
    assert a.Actor().Some? ==> PcOk(s, s.PcOf(a.w));
    assert Pending(Step(s, a)) == Pending(s);
  }

  lemma StepKeepsBooks(s: State, a: Action)
    requires Inv(s)
    ensures BooksOk(Step(s, a))
  {
    if a.Upsert? || a.CommitIngest? || a.Abort? {
      IngestKeepsBooks(s, a);
    } else {
      OthersKeepBooks(s, a);
    }
  }

  lemma NewVersionKeepsPc(s: State, acl: DocAcl, pc: Pc)
    requires s.history != [] && s.synced <= s.AclVersion() && PcOk(s, pc)
    ensures PcOk(s.(history := s.history + [acl]), pc)
  {
  }

  lemma DriftKeepsPc(s: State, closure: set<Path>, now: int, pc: Pc)
    requires s.history != [] && s.syncedAt <= s.drifts && PcOk(s, pc)
    ensures PcOk(StepDrift(s, closure, now), pc)
  {
    var s' := StepDrift(s, closure, now);
    assert s'.AclVersion() == s.AclVersion() && s'.Current().owner == s.Current().owner;
    if s'.drifts == s.drifts {
      assert s'.Truth() == s.Truth();
    }
  }

  /** All but the program counters and the lock. */
  ghost predicate SameShared(s: State, s': State) {
    && s'.points == s.points && s'.recorded == s.recorded && s'.orphans == s.orphans && s'.columns == s.columns
    && s'.history == s.history && s'.synced == s.synced && s'.active == s.active
    && s'.drifts == s.drifts && s'.syncedAt == s.syncedAt
  }

  lemma SameSharedKeepsPc(s: State, s': State, pc: Pc)
    requires s.history != [] && SameShared(s, s') && PcOk(s, pc)
    ensures PcOk(s', pc)
  {
  }

  lemma WithoutLockNothingShared(s: State, a: Action)
    requires s.history != [] && a.Actor().Some? && !s.PcOf(a.w).HoldsLock()
    ensures SameShared(s, Step(s, a))
  {
  }

  lemma ColumnsStay(s: State, a: Action)
    requires s.history != []
    ensures Step(s, a).columns.Keys == s.columns.Keys
  {
  }

  lemma OthersStay(s: State, a: Action, w: WorkerId)
    requires s.history != [] && w in s.pcs && a.Actor().Some? && a.w != w
    ensures w in Step(s, a).pcs && Step(s, a).pcs[w] == s.pcs[w]
  {
  }

  lemma OutsideKeepsPc(s: State, s': State, pc: Pc)
    requires s.history != [] && s'.history != [] && s'.columns.Keys == s.columns.Keys && !pc.HoldsLock() && PcOk(s, pc)
    ensures PcOk(s', pc)
  {
  }

  /** Only the lock holder's counter depends on anything its own steps change. */
  lemma OthersKeepPc(s: State, a: Action, w: WorkerId)
    requires Inv(s) && w in s.pcs && a.Actor().Some? && a.w != w
    ensures w in Step(s, a).pcs && Step(s, a).pcs[w] == s.pcs[w]
    ensures PcOk(Step(s, a), s.pcs[w])
  {
    assert PcOk(s, s.pcs[w]);
    OthersStay(s, a, w);
    if s.pcs[w].HoldsLock() {
      WithoutLockNothingShared(s, a);
      SameSharedKeepsPc(s, Step(s, a), s.pcs[w]);
    } else {
      ColumnsStay(s, a);
      OutsideKeepsPc(s, Step(s, a), s.pcs[w]);
    }
  }

  lemma CollectKeepsPc(s: State, w: WorkerId)
    requires Inv(s) && s.PcOf(w).ScopeRead?
    ensures PcOk(Step(s, Collect(w)), Step(s, Collect(w)).PcOf(w))
  {
    assert PcOk(s, s.PcOf(w));
  }

  lemma PatchKeepsPc(s: State, w: WorkerId, model: ModelId)
    requires Inv(s) && s.PcOf(w).Patching?
    ensures PcOk(StepPatch(s, w, model), StepPatch(s, w, model).PcOf(w))
  {
    var pc, s' := s.PcOf(w), StepPatch(s, w, model);
    assert PcOk(s, pc);
    if pc.version == s.AclVersion() && pc.drifts == s.drifts {
      forall k | k in s'.recorded && k.chunk in s'.active && k !in s'.PcOf(w).todo ensures Right(s', k) {
        PatchedIsRight(s, w, model, k);
      }
    }
  }

  lemma PatchedIsRight(s: State, w: WorkerId, model: ModelId, k: PointKey)
    requires s.history != [] && s.PcOf(w).Patching? && s.PcOf(w).patch == s.Truth()
    requires k in s.points && k !in StepPatch(s, w, model).PcOf(w).todo
    requires k in s.PcOf(w).todo || Right(s, k)
    ensures Right(StepPatch(s, w, model), k)
  {
  }

  lemma RefreshKeepsPc(s: State, w: WorkerId)
    requires Inv(s) && s.PcOf(w).IngestLocked?
    ensures PcOk(Step(s, Refresh(w)), Step(s, Refresh(w)).PcOf(w))
  {
    var pc := s.PcOf(w);
    assert PcOk(s, pc);
    RereadIsTrue(s, pc.points);
    var s' := Step(s, Refresh(w));
    assert s'.PcOf(w) == Refreshed(Reread(pc.points, s.columns, s.Current().owner));
    assert SameShared(s, s');
  }

  lemma RereadIsTrue(s: State, points: map<PointKey, Payload>)
    requires s.history != [] && Truthful(s) && forall k :: k in points ==> k.chunk in s.columns
    ensures var reread := Reread(points, s.columns, s.Current().owner);
            && (forall k :: k in reread ==> k.chunk in s.columns)
            && (IsFresh(s) ==> forall k :: k in reread ==> reread[k] == s.Truth())
  {
  }

  lemma UpsertKeepsPc(s: State, w: WorkerId)
    requires Inv(s) && s.PcOf(w).Refreshed?
    ensures PcOk(Step(s, Upsert(w)), Step(s, Upsert(w)).PcOf(w))
  {
  }

  lemma ReadVersionKeepsPc(s: State, w: WorkerId)
    requires Inv(s)
    ensures PcOk(Step(s, ReadVersion(w)), Step(s, ReadVersion(w)).PcOf(w))
  {
    assert PcOk(s, s.PcOf(w));
  }

  lemma ReadScopeKeepsPc(s: State, w: WorkerId)
    requires Inv(s)
    ensures PcOk(Step(s, ReadScope(w)), Step(s, ReadScope(w)).PcOf(w))
  {
    assert PcOk(s, s.PcOf(w));
  }

  /** The remaining steps leave their worker with a counter about which little has to hold. */
  lemma OtherStepsKeepPc(s: State, a: Action)
    requires Inv(s) && a.Actor().Some? && !a.ReadVersion? && !a.ReadScope?
    requires !(a.Collect? && s.PcOf(a.w).ScopeRead?) && !(a.Patch? && s.PcOf(a.w).Patching?)
    requires !(a.Refresh? && s.PcOf(a.w).IngestLocked?) && !(a.Upsert? && s.PcOf(a.w).Refreshed?)
    ensures PcOk(Step(s, a), Step(s, a).PcOf(a.w))
  {
    assert PcOk(s, s.PcOf(a.w));
    var s' := Step(s, a);
    if s' == s {
    } else {
      var pc := s'.PcOf(a.w);
      assert pc.Idle? || pc.Embedded? || pc.ResyncLocked? || pc.IngestLocked?;
    }
  }

  lemma ActorKeepsPc(s: State, a: Action)
    requires Inv(s) && a.Actor().Some?
    ensures PcOk(Step(s, a), Step(s, a).PcOf(a.w))
  {
    if a.Collect? && s.PcOf(a.w).ScopeRead? {
      CollectKeepsPc(s, a.w);
    } else if a.Patch? && s.PcOf(a.w).Patching? {
      PatchKeepsPc(s, a.w, a.model);
    } else if a.Refresh? && s.PcOf(a.w).IngestLocked? {
      RefreshKeepsPc(s, a.w);
    } else if a.Upsert? && s.PcOf(a.w).Refreshed? {
      UpsertKeepsPc(s, a.w);
    } else if a.ReadVersion? {
      ReadVersionKeepsPc(s, a.w);
    } else if a.ReadScope? {
      ReadScopeKeepsPc(s, a.w);
    } else {
      OtherStepsKeepPc(s, a);
    }
  }

  lemma StepKeepsPcs(s: State, a: Action)
    requires Inv(s)
    ensures PcsOk(Step(s, a))
  {
    var s' := Step(s, a);
    forall w | w in s'.pcs ensures PcOk(s', s'.pcs[w]) {
      if a.ChangeAcl? {
        NewVersionKeepsPc(s, a.acl, s.pcs[w]);
      } else if a.Drift? {
        DriftKeepsPc(s, a.closure, a.now, s.pcs[w]);
      } else if w == a.w {
        ActorKeepsPc(s, a);
      } else {
        OthersKeepPc(s, a, w);
      }
    }
  }

  lemma PatchKeepsTruth(s: State, w: WorkerId, model: ModelId)
    requires Inv(s) && s.PcOf(w).Patching?
    ensures Truthful(StepPatch(s, w, model))
  {
    assert PcOk(s, s.PcOf(w));
    var s' := StepPatch(s, w, model);
    if IsFresh(s') {
      assert s.PcOf(w).patch == s.Truth();
      forall k | k in s'.points && k.chunk in s'.active && k !in s'.orphans ensures Right(s', k) {
        assert Right(s, k);
      }
    }
  }

  lemma CommitKeepsTruth(s: State, w: WorkerId)
    requires Inv(s) && s.PcOf(w).Patching? && s.PcOf(w).todo == {}
    ensures Truthful(StepCommitResync(s, w))
  {
    assert PcOk(s, s.PcOf(w));
    var s' := StepCommitResync(s, w);
    if IsFresh(s') {
      assert s.PcOf(w).version == s.AclVersion() && s.PcOf(w).drifts == s.drifts;
      forall k | k in s'.points && k.chunk in s'.active && k !in s'.orphans ensures Right(s', k) {
        NothingPending(s, w, k);
        assert Right(s, k);
      }
    }
  }

  /** While a resync holds the lock, a point that is no orphan is recorded. */
  lemma NothingPending(s: State, w: WorkerId, k: PointKey)
    requires s.history != [] && LockOk(s) && BooksOk(s) && s.PcOf(w).Patching? && k in s.points && k !in s.orphans
    ensures k in s.recorded
  {
    assert Pending(s) == {};
  }

  lemma UpsertKeepsTruth(s: State, w: WorkerId)
    requires Inv(s) && s.PcOf(w).Refreshed?
    ensures Truthful(Step(s, Upsert(w)))
  {
    assert PcOk(s, s.PcOf(w));
    var s' := Step(s, Upsert(w));
    if IsFresh(s') {
      forall k | k in s'.points && k.chunk in s'.active && k !in s'.orphans ensures Right(s', k) {
        assert k !in s.PcOf(w).points ==> Right(s, k);
      }
    }
  }

  lemma StepKeepsTruth(s: State, a: Action)
    requires Inv(s)
    ensures Truthful(Step(s, a))
  {
    if a.Patch? && s.PcOf(a.w).Patching? {
      PatchKeepsTruth(s, a.w, a.model);
    } else if a.CommitResync? && s.PcOf(a.w).Patching? && s.PcOf(a.w).todo == {} {
      CommitKeepsTruth(s, a.w);
    } else if a.Upsert? && s.PcOf(a.w).Refreshed? {
      UpsertKeepsTruth(s, a.w);
    } else {
      StepLeavesIndex(s, a);
      SameIndexKeepsTruth(s, Step(s, a));
    }
  }

  /** The index is as it was, or the version moved on. */
  ghost predicate SameIndex(s: State, s': State)
    requires s.history != []
  {
    && s'.history != []
    && ((s'.history == s.history && s'.drifts == s.drifts)
        || s'.AclVersion() > s.AclVersion()
        || (s'.AclVersion() == s.AclVersion() && s'.drifts > s.drifts)
        || (s'.AclVersion() == s.AclVersion() && s'.drifts == s.drifts && s'.Truth() == s.Truth()))
    && s'.syncedAt == s.syncedAt
    && s'.points == s.points && s'.columns == s.columns && s'.active == s.active && s'.synced == s.synced
    && s.orphans <= s'.orphans
  }

  lemma StepLeavesIndex(s: State, a: Action)
    requires s.history != []
    requires !(a.Patch? && s.PcOf(a.w).Patching?) && !(a.Upsert? && s.PcOf(a.w).Refreshed?)
    requires !(a.CommitResync? && s.PcOf(a.w).Patching? && s.PcOf(a.w).todo == {})
    ensures SameIndex(s, Step(s, a))
  {
    if a.Drift? {
      assert Step(s, a).Current().owner == s.Current().owner;
    }
  }

  lemma SameIndexKeepsTruth(s: State, s': State)
    requires Inv(s) && SameIndex(s, s')
    ensures Truthful(s')
  {
    if IsFresh(s') {
      assert s'.Truth() == s.Truth();
      forall k | k in s'.points && k.chunk in s'.active && k !in s'.orphans ensures Right(s', k) {
        assert Right(s, k);
      }
    }
  }

  lemma {:induction false} RunKeepsInv(s: State, acts: seq<Action>)
    requires Inv(s)
    ensures Inv(Run(s, acts))
  {
    if acts != [] {
      var mid, a := Run(s, acts[..|acts| - 1]), acts[|acts| - 1];
      RunKeepsInv(s, acts[..|acts| - 1]);
      StepKeepsLock(mid, a);
      StepKeepsBooks(mid, a);
      StepKeepsPcs(mid, a);
      StepKeepsTruth(mid, a);
    }
  }

  lemma RunThen(s: State, acts: seq<Action>, a: Action)
    requires s.history != []
    ensures Run(s, acts + [a]) == Step(Run(s, acts), a)
  {
    assert (acts + [a])[..|acts|] == acts;
  }

  lemma {:induction false} RunConcat(s: State, xs: seq<Action>, ys: seq<Action>)
    requires s.history != []
    ensures Run(s, xs + ys) == Run(Run(s, xs), ys)
  {
    if ys == [] {
      assert xs + ys == xs;
    } else {
      var init := ys[..|ys| - 1];
      assert (xs + ys)[..|xs + ys| - 1] == xs + init;
      RunConcat(s, xs, init);
    }
  }
}
