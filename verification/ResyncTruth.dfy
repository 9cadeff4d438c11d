/**
  What a synced version says about the index, and exactly what it does not: a
  scope that drifts under an unchanged version, and points that no row records.
*/
module ResyncTruth {
  import opened Wrappers
  import opened Collections
  import opened AclScope
  import opened ResyncProtocol

  /** Columns and recorded active points agree with the grants now. */
  ghost predicate IndexIsTruthful(s: State)
    requires s.history != []
  {
    && (forall c :: c in s.columns ==> s.columns[c] == FetchAccessScopes(s.Current()))
    && (forall k :: k in s.recorded && k.chunk in s.active ==>
          k in s.points && s.points[k] == Payload(FetchAccessScopes(s.Current()), s.Current().owner))
  }

  lemma InitHasInv(s: State)
    requires Init(s)
    ensures Inv(s)
  {
  }

  /**
    In every reachable state: while the synced version is current and the scope
    has not drifted since it was read, the columns hold the scope the grants
    define, and so does every active point, except those an aborted upsert left
    unrecorded.
  */
  lemma SyncedIsTruthful(s: State, acts: seq<Action>)
    requires Init(s)
    ensures var s' := Run(s, acts);
            IsFresh(s') ==>
              && IndexIsTruthful(s')
              && (forall k :: k in s'.points && k.chunk in s'.active && k !in s'.orphans ==>
                    s'.points[k] == Payload(FetchAccessScopes(s'.Current()), s'.Current().owner))
  {
    InitHasInv(s);
    RunKeepsInv(s, acts);
    if IsFresh(Run(s, acts)) {
      FreshIsTruthful(Run(s, acts));
    }
  }

  lemma FreshIsTruthful(s: State)
    requires Inv(s) && IsFresh(s)
    ensures IndexIsTruthful(s)
    ensures forall k :: k in s.points && k.chunk in s.active && k !in s.orphans ==>
              s.points[k] == Payload(FetchAccessScopes(s.Current()), s.Current().owner)
  {
    forall k | k in s.points && k.chunk in s.active && k !in s.orphans
      ensures s.points[k] == Payload(FetchAccessScopes(s.Current()), s.Current().owner)
    {
      assert Right(s, k);
    }
  }

  lemma {:induction false} NoAbortNoOrphan(s: State, acts: seq<Action>)
    requires s.history != [] && s.orphans == {}
    requires forall i :: 0 <= i < |acts| ==> !(acts[i].Abort? && Run(s, acts[..i]).PcOf(acts[i].w).Upserted?)
    ensures Run(s, acts).orphans == {}
  {
    if acts != [] {
      var init := acts[..|acts| - 1];
      forall i | 0 <= i < |init| ensures !(init[i].Abort? && Run(s, init[..i]).PcOf(init[i].w).Upserted?) {
        assert init[..i] == acts[..i];
      }
      NoAbortNoOrphan(s, init);
    }
  }

  /** When no transaction aborts after its upsert, every active point is truthful. */
  lemma SyncedIsTruthfulWithoutAborts(s: State, acts: seq<Action>, k: PointKey)
    requires Init(s) && IsFresh(Run(s, acts))
    requires forall i :: 0 <= i < |acts| ==> !(acts[i].Abort? && Run(s, acts[..i]).PcOf(acts[i].w).Upserted?)
    requires k in Run(s, acts).points && k.chunk in Run(s, acts).active
    ensures Run(s, acts).points[k] == Run(s, acts).Truth()
  {
    NoAbortNoOrphan(s, acts);
    SyncedIsTruthful(s, acts);
  }

  // ---- A resync that nobody disturbs ----

  /** From `s` a worker patched everything it collected. */
  function Patched(s: State, w: WorkerId): State
    requires s.PcOf(w).Patching?
  {
    var pc := s.PcOf(w);
    s.At(w, pc.(todo := {})).(points := map k | k in s.points :: if k in pc.todo then pc.patch else s.points[k])
  }

  lemma {:induction false} PatchAll(s: State, w: WorkerId) returns (acts: seq<Action>)
    requires s.history != [] && s.PcOf(w).Patching?
    ensures Run(s, acts) == Patched(s, w)
    decreases |s.PcOf(w).todo|
  {
    var pc := s.PcOf(w);
    if pc.todo == {} {
      acts := [];
      assert Patched(s, w).points == s.points;
      assert s.pcs[w := pc] == s.pcs;
    } else {
      var k :| k in pc.todo;
      var s1 := StepPatch(s, w, k.model);
      OnePatch(s, w, k);
      var rest := PatchAll(s1, w);
      RunThen(s, [], Patch(w, k.model));
      assert [] + [Patch(w, k.model)] == [Patch(w, k.model)];
      RunConcat(s, [Patch(w, k.model)], rest);
      acts := [Patch(w, k.model)] + rest;
    }
  }

  /** Patching one collection first leaves the whole patch the same. */
  lemma OnePatch(s: State, w: WorkerId, k: PointKey)
    requires s.PcOf(w).Patching? && k in s.PcOf(w).todo
    ensures var s1 := StepPatch(s, w, k.model);
            s1.PcOf(w).Patching? && s1.PcOf(w).todo < s.PcOf(w).todo && |s1.PcOf(w).todo| < |s.PcOf(w).todo|
            && Patched(s1, w) == Patched(s, w)
  {
    var pc, s1 := s.PcOf(w), StepPatch(s, w, k.model);
    var left := s1.PcOf(w).todo;
    assert left <= pc.todo - {k};
    SmallerSet(left, pc.todo, k);
    assert Patched(s1, w).points == Patched(s, w).points;
    assert Patched(s1, w).pcs == Patched(s, w).pcs;
  }

  /** The worker has the lock and the list of points. */
  function Collected(s: State, w: WorkerId): State
    requires s.history != []
  {
    s.At(w, Patching(s.AclVersion(), s.Truth(), s.drifts, set k | k in s.recorded && k.chunk in s.active)).(lock := Some(w))
  }

  lemma RunCollect(s: State, w: WorkerId) returns (acts: seq<Action>)
    requires s.history != [] && s.lock.None? && s.PcOf(w).Idle?
    ensures Run(s, acts) == Collected(s, w)
  {
    var s1, s2 := StepsToVersion(s, w);
    var s3, s4 := StepsToCollect(s, s2, w);
    acts := Extend(s, [], s, LockForResync(w, s.AclVersion()), s1);
    acts := Extend(s, acts, s1, ReadVersion(w), s2);
    acts := Extend(s, acts, s2, ReadScope(w), s3);
    acts := Extend(s, acts, s3, Collect(w), s4);
  }

  lemma StepsToVersion(s: State, w: WorkerId) returns (s1: State, s2: State)
    requires s.history != [] && s.lock.None? && s.PcOf(w).Idle?
    ensures s1 == Step(s, LockForResync(w, s.AclVersion())) && s1.history != []
    ensures s2 == Step(s1, ReadVersion(w))
    ensures s2 == s.At(w, VersionRead(s.AclVersion(), s.Current().owner)).(lock := Some(w))
  {
    var v := s.AclVersion();
    s1 := Step(s, LockForResync(w, v));
    assert s1 == s.At(w, ResyncLocked(v)).(lock := Some(w));
    s2 := Step(s1, ReadVersion(w));
    assert s2.pcs == s.pcs[w := VersionRead(v, s.Current().owner)];
  }

  lemma StepsToCollect(s: State, s2: State, w: WorkerId) returns (s3: State, s4: State)
    requires s.history != [] && s2 == s.At(w, VersionRead(s.AclVersion(), s.Current().owner)).(lock := Some(w))
    ensures s3 == Step(s2, ReadScope(w)) && s3.history != []
    ensures s4 == Step(s3, Collect(w)) == Collected(s, w)
  {
    s3 := Step(s2, ReadScope(w));
    assert s3 == s2.At(w, ScopeRead(s.AclVersion(), s.Truth(), s.drifts));
    s4 := Step(s3, Collect(w));
    assert s4.pcs == Collected(s, w).pcs;
  }

  /** One more action on a run that is known so far. */
  lemma Extend(s: State, acts: seq<Action>, mid: State, a: Action, end: State) returns (more: seq<Action>)
    requires s.history != [] && Run(s, acts) == mid && mid.history != [] && Step(mid, a) == end
    ensures more == acts + [a] && Run(s, more) == end
  {
    RunThen(s, acts, a);
    more := acts + [a];
  }

  /** What the resync leaves: a truthful index, and everything it did not list as it was. */
  ghost predicate Resynced(s: State, s': State)
    requires s.history != [] && s'.history != []
  {
    && s'.history == s.history && s'.drifts == s.drifts && s'.recorded == s.recorded && s'.active == s.active
    && s'.columns.Keys == s.columns.Keys
    && IsFresh(s') && IndexIsTruthful(s')
    && (forall k :: k in s.points && k !in s.recorded ==> k in s'.points && s'.points[k] == s.points[k])
  }

  lemma CommitResyncs(s: State, w: WorkerId)
    requires s.history != [] && s.recorded <= s.points.Keys
    ensures Resynced(s, StepCommitResync(Patched(Collected(s, w), w), w))
  {
  }

  /** From any state in which the lock is free, a resync that nobody disturbs makes the index truthful, whatever drifted before. */
  lemma ResyncRepairs(s: State, w: WorkerId) returns (acts: seq<Action>)
    requires s.history != [] && s.lock.None? && s.PcOf(w).Idle? && s.recorded <= s.points.Keys
    ensures Resynced(s, Run(s, acts))
  {
    var collect := RunCollect(s, w);
    var patch := PatchAll(Collected(s, w), w);
    RunConcat(s, collect, patch);
    RunThen(s, collect + patch, CommitResync(w));
    CommitResyncs(s, w);
    acts := collect + patch + [CommitResync(w)];
  }

  // ---- Exactly the recorded points are covered ----

  lemma StepKeepsRecorded(s: State, a: Action)
    requires s.history != []
    ensures s.recorded <= Step(s, a).recorded && Step(s, a).active == s.active
  {
  }

  lemma {:induction false} RecordedStays(s: State, acts: seq<Action>)
    requires s.history != []
    ensures s.recorded <= Run(s, acts).recorded && Run(s, acts).active == s.active
  {
    if acts != [] {
      RecordedStays(s, acts[..|acts| - 1]);
      StepKeepsRecorded(Run(s, acts[..|acts| - 1]), acts[|acts| - 1]);
    }
  }

  lemma {:induction false} DriftsGrow(s: State, acts: seq<Action>)
    requires s.history != []
    ensures s.drifts <= Run(s, acts).drifts
  {
    if acts != [] {
      DriftsGrow(s, acts[..|acts| - 1]);
      StepDrifts(Run(s, acts[..|acts| - 1]), acts[|acts| - 1]);
    }
  }

  lemma StepDrifts(s: State, a: Action)
    requires s.history != []
    ensures s.drifts <= Step(s, a).drifts
  {
  }

  /** Nobody holds the lock and worker 0 is idle; the points are as they were. */
  lemma Quiesce(s: State) returns (acts: seq<Action>)
    requires Inv(s)
    ensures var s' := Run(s, acts);
            && s'.lock.None? && s'.PcOf(0).Idle?
            && s'.points == s.points && s'.recorded == s.recorded && s'.history == s.history
  {
    acts := [];
    if s.lock.Some? {
      RunThen(s, [], Abort(s.lock.value));
      acts := [] + [Abort(s.lock.value)];
    }
    RunKeepsInv(s, acts);
    var mid := Run(s, acts);
    assert mid.lock.None? && !mid.PcOf(0).HoldsLock();
    RunThen(s, acts, Abort(0));
    acts := acts + [Abort(0)];
  }

  /** A point that no row records can be stale while the document is synced and nothing has drifted. */
  lemma UnrecordedGoesStale(s: State, k: PointKey) returns (acts: seq<Action>)
    requires Inv(s) && k in s.points && k !in s.recorded
    ensures IsFresh(Run(s, acts)) && !Right(Run(s, acts), k)
  {
    var first := Quiesce(s);
    var mid := Run(s, first);
    RunKeepsInv(s, first);
    var next := mid.Current().(owner := s.points[k].owner + 1);
    RunThen(s, first, ChangeAcl(next));
    var moved := Run(s, first + [ChangeAcl(next)]);
    assert moved == mid.(history := mid.history + [next]);
    var second := ResyncRepairs(moved, 0);
    RunConcat(s, first + [ChangeAcl(next)], second);
    acts := first + [ChangeAcl(next)] + second;
    assert Run(s, acts).points[k] == s.points[k];
    assert Run(s, acts).Truth().owner == next.owner;
  }

  ghost predicate RightWheneverFresh(s: State, k: PointKey)
    requires s.history != []
  {
    forall acts :: IsFresh(Run(s, acts)) ==> Right(Run(s, acts), k)
  }

  /**
    The exact condition: from a reachable state on, an active point tells the
    truth whenever the document is synced and nothing has drifted, in every
    continuation, if and only if a row of `document_chunk_vectors` records it.
  */
  lemma RightIffRecorded(s: State, before: seq<Action>, k: PointKey)
    requires Init(s)
    requires k in Run(s, before).points && k.chunk in Run(s, before).active
    ensures RightWheneverFresh(Run(s, before), k) <==> k in Run(s, before).recorded
  {
    var mid := Run(s, before);
    InitHasInv(s);
    RunKeepsInv(s, before);
    if k in mid.recorded {
      forall acts | IsFresh(Run(mid, acts)) ensures Right(Run(mid, acts), k) {
        RunKeepsInv(mid, acts);
        RecordedStays(mid, acts);
        FreshIsTruthful(Run(mid, acts));
      }
    } else {
      var acts := UnrecordedGoesStale(mid, k);
      assert IsFresh(Run(mid, acts)) && !Right(Run(mid, acts), k);
    }
  }

  // ---- Drift under an unchanged version ----

  /**
    The exact condition for a change that bumps nothing: a truthful index under
    a synced version stays truthful if and only if for every unit but the owner,
    some unexpired grant that covers the document names it after the change
    exactly when one did before. The version stays synced either way.
  */
  lemma DriftIsHarmlessIff(s: State, closure: set<Path>, now: int)
    requires s.history != [] && IsSynced(s) && IndexIsTruthful(s) && s.columns != map[]
    ensures var s', acl, acl' := Step(s, Drift(closure, now)), s.Current(), s.Current().(closure := closure, now := now);
            && IsSynced(s')
            && (IndexIsTruthful(s') <==> forall u :: u != acl.owner ==> (Granted(acl', u) <==> Granted(acl, u)))
  {
    DriftIsHarmlessIffSameScope(s, closure, now);
    SameScopeIff(s.Current(), s.Current().(closure := closure, now := now));
  }

  lemma DriftIsHarmlessIffSameScope(s: State, closure: set<Path>, now: int)
    requires s.history != [] && IsSynced(s) && IndexIsTruthful(s) && s.columns != map[]
    ensures var s' := Step(s, Drift(closure, now));
            && IsSynced(s')
            && (IndexIsTruthful(s')
                <==> FetchAccessScopes(s.Current().(closure := closure, now := now)) == FetchAccessScopes(s.Current()))
  {
    var s' := Step(s, Drift(closure, now));
    assert s'.Current() == s.Current().(closure := closure, now := now);
    var c :| c in s.columns;
    assert s'.columns[c] == FetchAccessScopes(s.Current());
  }

  /** One active chunk, whose column holds `scope`. */
  function Start(acl: DocAcl, scope: set<UnitId>): State {
    State([acl], 0, map[0 := scope], {0}, {}, map[], None, map[], 0, 0, {})
  }

  /** For every access control and every drift of its scope, some run ends with the version synced and the index stale. */
  lemma DriftLeavesIndexStale(acl: DocAcl, closure: set<Path>, now: int) returns (s: State, acts: seq<Action>)
    requires FetchAccessScopes(acl.(closure := closure, now := now)) != FetchAccessScopes(acl)
    ensures Init(s) && s.history == [acl]
    ensures var s' := Run(s, acts); IsSynced(s') && !IndexIsTruthful(s')
  {
    s := Start(acl, {});
    var sync := ResyncRepairs(s, 0);
    RunThen(s, sync, Drift(closure, now));
    assert 0 in Run(s, sync).columns;
    DriftIsHarmlessIffSameScope(Run(s, sync), closure, now);
    acts := sync + [Drift(closure, now)];
  }

  /** Unit 1 owns the document; unit 2 and everything below it may read it. */
  const SUBTREE_GRANT := DocAcl(1, {Grant(ThisDocument, SelfOnly, 2, SelfAndDescendants, Read, None)}, {Path(2, 2, 0)}, 0)

  /** Creating unit 3 below unit 2 is such a drift. */
  lemma NewUnitDrifts()
    ensures 3 in FetchAccessScopes(SUBTREE_GRANT.(closure := {Path(2, 2, 0), Path(2, 3, 1)}))
    ensures 3 !in FetchAccessScopes(SUBTREE_GRANT)
  {
    var g := Grant(ThisDocument, SelfOnly, 2, SelfAndDescendants, Read, None);
    var acl := SUBTREE_GRANT.(closure := {Path(2, 2, 0), Path(2, 3, 1)});
    assert Covers(acl, g) && Path(2, 3, 1) in acl.closure && Names(acl, g, 3);
    ScopeIsOwnerOrNamed(acl, 3);
    ScopeIsOwnerOrNamed(SUBTREE_GRANT, 3);
  }

  /** A grant that lapses is another. */
  lemma LapsedGrantDrifts()
    ensures var acl := DocAcl(1, {Grant(ThisDocument, SelfOnly, 2, SelfOnly, Read, Some(10))}, {}, 0);
            2 in FetchAccessScopes(acl) && 2 !in FetchAccessScopes(acl.(now := 10))
  {
    var g := Grant(ThisDocument, SelfOnly, 2, SelfOnly, Read, Some(10));
    var acl := DocAcl(1, {g}, {}, 0);
    assert g in DocumentGrants(acl);
    assert 2 in SelfPrincipals(DocumentGrants(acl));
  }

  // ---- Aborted upserts ----

  const KEY := PointKey(0, 0)

  /** Worker 1 upserts the chunk's point and aborts before recording it. */
  lemma AbortedUpsert(acl: DocAcl, scope: set<UnitId>) returns (acts: seq<Action>)
    ensures Run(Start(acl, scope), acts)
            == Start(acl, scope).(points := map[KEY := Payload(scope, acl.owner)], orphans := {KEY}, pcs := map[1 := Idle])
  {
    var s := Start(acl, scope);
    var stale, renewed := map[KEY := Payload({}, 0)], map[KEY := Payload(scope, acl.owner)];
    var s1 := Step(s, Embed(1, stale));
    assert s1 == s.(pcs := map[1 := Embedded(stale)]);
    var s2 := Step(s1, LockForIngest(1));
    assert s2 == s.(pcs := map[1 := IngestLocked(stale)], lock := Some(1));
    assert Reread(stale, s2.columns, s2.Current().owner) == renewed;
    var s3 := Step(s2, Refresh(1));
    assert s3 == s2.(pcs := map[1 := Refreshed(renewed)]);
    UpsertAndAbort(s3, renewed);
    assert map[1 := Refreshed(renewed)][1 := Idle] == map[1 := Idle];
    acts := Extend(s, [], s, Embed(1, stale), s1);
    acts := Extend(s, acts, s1, LockForIngest(1), s2);
    acts := Extend(s, acts, s2, Refresh(1), s3);
    acts := Extend(s, acts, s3, Upsert(1), Step(s3, Upsert(1)));
    RunThen(s, acts, Abort(1));
    acts := acts + [Abort(1)];
  }

  lemma UpsertAndAbort(s: State, points: map<PointKey, Payload>)
    requires s.history != [] && s.PcOf(1) == Refreshed(points) && s.points == map[] && s.recorded == {} && s.orphans == {}
    ensures Step(Step(s, Upsert(1)), Abort(1))
            == s.(points := points, orphans := points.Keys, pcs := s.pcs[1 := Idle], lock := None)
  {
    var s1 := Step(s, Upsert(1));
    assert s1 == s.(points := points, pcs := s.pcs[1 := Upserted(points)]);
    assert s.pcs[1 := Upserted(points)][1 := Idle] == s.pcs[1 := Idle];
  }

  /**
    A point whose upsert was aborted keeps what it had while a later version is
    reported synced: for any two versions that differ, some run ends that way.
  */
  lemma OrphansStayStale(before: DocAcl, after: DocAcl) returns (s: State, acts: seq<Action>)
    requires Payload(FetchAccessScopes(before), before.owner) != Payload(FetchAccessScopes(after), after.owner)
    ensures Init(s) && s.history == [before]
    ensures var s' := Run(s, acts);
            && IsFresh(s') && s'.history == [before, after]
            && KEY in s'.points && KEY.chunk in s'.active && s'.points[KEY] != s'.Truth()
  {
    s := Start(before, FetchAccessScopes(before));
    var first := AbortedUpsert(before, FetchAccessScopes(before));
    RunThen(s, first, ChangeAcl(after));
    var mid := Run(s, first + [ChangeAcl(after)]);
    assert [before] + [after] == [before, after];
    var second := ResyncRepairs(mid, 2);
    RunConcat(s, first + [ChangeAcl(after)], second);
    acts := first + [ChangeAcl(after)] + second;
  }
}
