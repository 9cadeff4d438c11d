/**
  The Redis cache in front of the resolver. Fills are computed from a snapshot
  and may reach Redis late, repeatedly and out of order; entries may vanish;
  invalidations are not needed at all. A hit is served only while the entry is
  unexpired and stamped with the user's current epochs.
*/
module AccessCache {
  import opened Wrappers
  import opened Collections
  import opened AclScope
  import opened AccessResolver

  datatype Key = Key(user: UserId, root: UnitId)

  datatype Entry = Entry(units: set<UnitId>, epochs: Epochs, untilMs: int)

  /** Five minutes. */
  const DEFAULT_TTL: int := 300_000_000

  /** Whole milliseconds, rounded down. */
  function FloorMs(us: int): int {
    us / 1000
  }

  /** `delay` after database time `now` the application adds the default lifetime and clamps it to the earliest expiry that counted. */
  function CacheUntil(r: Reader, now: int, delay: nat): int {
    var untilUs := now + delay + DEFAULT_TTL;
    if r.Expiries(now) == {} then untilUs
    else
      var e := FloorMs(Min(r.Expiries(now))) * 1000;
      if e < untilUs then e else untilUs
  }

  /** What a resolve at database time `now` caches. */
  function MakeEntry(db: Db, key: Key, now: int, delay: nat): Entry
    requires key.user in db.scopeEpochs
  {
    var r := db.ReaderOf(key.user);
    Entry(r.Resolve(key.root, now), db.EpochsOf(key.user), FloorMs(CacheUntil(r, now, delay)))
  }

  /** `history` is every committed database state, the current one last; `fills` is every entry ever computed. */
  datatype State = State(
    history: seq<Db>, now: int, fills: set<(Key, Entry)>, cache: map<Key, Entry>)
  {
    function Live(): Db
      requires history != []
    {
      history[|history| - 1]
    }
  }

  datatype Action =
    | Tick(elapsed: nat)
    | Change(st: Statement)
    | Fill(key: Key, delay: nat)
    | Land(key: Key, e: Entry)
    | Evict(key: Key)

  function Step(s: State, a: Action): State
    requires s.history != []
    ensures Step(s, a).history != []
  {
    match a
    case Tick(elapsed) => s.(now := s.now + elapsed)
    case Change(st) => s.(history := s.history + [Exec(s.Live(), st)])
    case Fill(key, delay) =>
      if key.user in s.Live().scopeEpochs then s.(fills := s.fills + {(key, MakeEntry(s.Live(), key, s.now, delay))})
      else s
    case Land(key, e) => if (key, e) in s.fills then s.(cache := s.cache[key := e]) else s
    case Evict(key) => s.(cache := s.cache - {key})
  }

  function Run(s: State, acts: seq<Action>): State
    requires s.history != []
    ensures Run(s, acts).history != []
  {
    if acts == [] then s else Step(Run(s, acts[..|acts| - 1]), acts[|acts| - 1])
  }

  ghost predicate Init(s: State) {
    |s.history| == 1 && s.fills == {} && s.cache == map[]
  }

  /** The check of the fast path. */
  predicate Hit(s: State, key: Key)
    requires s.history != []
  {
    && key in s.cache
    && FloorMs(s.now) < s.cache[key].untilMs
    && key.user in s.Live().scopeEpochs
    && s.cache[key].epochs == s.Live().EpochsOf(key.user)
  }

  // ---- The history by epoch ----

  /** Between two states of the history a user's epochs only grow, and equal epochs mean an equal reader. */
  ghost predicate Ordered(db: Db, db': Db) {
    && db.scopeEpochs.Keys == db'.scopeEpochs.Keys
    && forall u :: u in db.scopeEpochs ==>
         && db.EpochsOf(u).Before(db'.EpochsOf(u))
         && (db.EpochsOf(u) == db'.EpochsOf(u) ==> db.ReaderOf(u) == db'.ReaderOf(u))
  }

  ghost predicate HistoryOk(history: seq<Db>) {
    forall i, j :: 0 <= i <= j < |history| ==> Ordered(history[i], history[j])
  }

  lemma ExecIsOrdered(db: Db, st: Statement)
    ensures Ordered(db, Exec(db, st))
  {
    ExecKeepsUsers(db, st);
    forall u | u in db.scopeEpochs
      ensures db.EpochsOf(u).Before(Exec(db, st).EpochsOf(u))
      ensures db.EpochsOf(u) == Exec(db, st).EpochsOf(u) ==> db.ReaderOf(u) == Exec(db, st).ReaderOf(u)
    {
      TriggersBump(db, st, u);
    }
  }

  lemma OrderedIsTransitive(a: Db, b: Db, c: Db)
    requires Ordered(a, b) && Ordered(b, c)
    ensures Ordered(a, c)
  {
    forall u | u in a.scopeEpochs
      ensures a.EpochsOf(u).Before(c.EpochsOf(u))
      ensures a.EpochsOf(u) == c.EpochsOf(u) ==> a.ReaderOf(u) == c.ReaderOf(u)
    {
      assert u in b.scopeEpochs && u in c.scopeEpochs;
      assert a.EpochsOf(u).Before(b.EpochsOf(u)) && b.EpochsOf(u).Before(c.EpochsOf(u));
    }
  }

  /** The entry was computed from a state of the history, at a time that has passed. */
  ghost predicate Justified(s: State, key: Key, e: Entry) {
    exists i: nat, t: int, delay: nat :: MadeFrom(s, key, e, i, t, delay)
  }

  ghost predicate MadeFrom(s: State, key: Key, e: Entry, i: nat, t: int, delay: nat) {
    i < |s.history| && t <= s.now && key.user in s.history[i].scopeEpochs && e == MakeEntry(s.history[i], key, t, delay)
  }

  ghost predicate Inv(s: State) {
    && s.history != [] && HistoryOk(s.history)
    && (forall key, e :: (key, e) in s.fills ==> Justified(s, key, e))
    && (forall key :: key in s.cache ==> (key, s.cache[key]) in s.fills)
  }

  lemma StillJustified(s: State, s': State, key: Key, e: Entry)
    requires Justified(s, key, e) && s.history <= s'.history && s.now <= s'.now
    ensures Justified(s', key, e)
  {
    var i: nat, t: int, delay: nat :| MadeFrom(s, key, e, i, t, delay);
    assert MadeFrom(s', key, e, i, t, delay);
  }

  lemma StepKeepsInv(s: State, a: Action)
    requires Inv(s)
    ensures Inv(Step(s, a))
  {
    var s' := Step(s, a);
    if a.Change? {
      ExecIsOrdered(s.Live(), a.st);
      forall i, j | 0 <= i <= j < |s'.history| ensures Ordered(s'.history[i], s'.history[j]) {
        if j == |s.history| && i < j {
          OrderedIsTransitive(s.history[i], s.Live(), s'.history[j]);
        }
      }
    }
    forall key, e | (key, e) in s'.fills ensures Justified(s', key, e) {
      if (key, e) in s.fills {
        StillJustified(s, s', key, e);
      } else {
        assert MadeFrom(s', key, e, |s.history| - 1, s.now, a.delay);
      }
    }
  }

  lemma {:induction false} RunKeepsInv(s: State, acts: seq<Action>)
    requires Inv(s)
    ensures Inv(Run(s, acts))
  {
    if acts != [] {
      RunKeepsInv(s, acts[..|acts| - 1]);
      StepKeepsInv(Run(s, acts[..|acts| - 1]), acts[|acts| - 1]);
    }
  }

  // ---- Expiry ----

  /** Between a fill and the clamp of its entry no contributing membership lapses. */
  lemma SameActive(r: Reader, t: int, now: int)
    requires t <= now && (r.Expiries(t) != {} ==> now < Min(r.Expiries(t)))
    ensures r.Active(now) == r.Active(t)
  {
    forall h | h in r.held ensures h.ActiveAt(t) <==> h.ActiveAt(now) {
      if h.ActiveAt(t) && h.expires.Some? {
        assert h in r.Active(t);
        assert h.expires.value in r.Expiries(t);
      }
    }
  }

  /** An unexpired entry answers like a resolve of the reader it was computed from. */
  lemma UnexpiredIsExact(db: Db, key: Key, t: int, delay: nat, now: int)
    requires key.user in db.scopeEpochs && t <= now
    requires FloorMs(now) < MakeEntry(db, key, t, delay).untilMs
    ensures MakeEntry(db, key, t, delay).units == db.ReaderOf(key.user).Resolve(key.root, now)
  {
    var r := db.ReaderOf(key.user);
    SameActive(r, t, now);
  }

  // ---- Coherence ----

  /** In every interleaving, a hit returns exactly what a fresh resolve would return at that moment. */
  lemma HitsAreCoherent(s: State, acts: seq<Action>, key: Key)
    requires Init(s) && Hit(Run(s, acts), key)
    ensures var s' := Run(s, acts);
            s'.cache[key].units == s'.Live().ReaderOf(key.user).Resolve(key.root, s'.now)
  {
    RunKeepsInv(s, acts);
    var s' := Run(s, acts);
    assert Justified(s', key, s'.cache[key]);
    var i: nat, t: int, delay: nat :| MadeFrom(s', key, s'.cache[key], i, t, delay);
    assert Ordered(s'.history[i], s'.Live());
    UnexpiredIsExact(s'.history[i], key, t, delay, s'.now);
  }
}
