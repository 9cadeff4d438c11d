/**
  The lease semaphore script of one company, and runs of calls through it.
  Times are milliseconds of the one Redis clock. A key is gone at its deadline.
*/
module Semaphore {
  import opened Wrappers
  import opened Collections

  type Token = nat

  /** The sorted set of leases, by the time each lapses, and the deadline of the key. */
  datatype Zset = Zset(leases: map<Token, int>, expiresAt: int)

  const LEASE_MARGIN: int := 15000
  const MAX_HOLD: int := 24 * 60 * 60 * 1000

  /** A sorted set with no member is no key. */
  function Stored(leases: map<Token, int>, expiresAt: int): Option<Zset> {
    if leases == map[] then None else Some(Zset(leases, expiresAt))
  }

  function Visible(key: Option<Zset>, now: int): Option<Zset> {
    if key.Some? && now >= key.value.expiresAt then None else key
  }

  function Leases(key: Option<Zset>, now: int): map<Token, int> {
    match Visible(key, now)
    case None => map[]
    case Some(z) => z.leases
  }

  function Pruned(key: Option<Zset>, now: int): map<Token, int> {
    var leases := Leases(key, now);
    map t | t in leases && leases[t] > now :: leases[t]
  }

  /** The script. At capacity it prunes, and leaves the key's deadline as it was. */
  function Acquire(key: Option<Zset>, now: int, cap: nat, ttl: int, token: Token): (Option<Zset>, bool) {
    var live := Pruned(key, now);
    if |live| >= cap then
      (if Visible(key, now).None? then None else Stored(live, key.value.expiresAt), false)
    else
      (Some(Zset(live[token := now + ttl], now + ttl * 2)), true)
  }

  function Release(key: Option<Zset>, now: int, token: Token): Option<Zset> {
    match Visible(key, now)
    case None => None
    case Some(z) => Stored(z.leases - {token}, z.expiresAt)
  }

  // ---- Runs ----

  /** A call that was let through. `ended`: it no longer runs. `released`: its slot was given back. */
  datatype Held = Held(start: int, hold: int, ended: bool, released: bool)

  datatype Event =
    | Ask(now: int, token: Token, hold: int)
    | End(now: int, token: Token, delivered: bool)

  datatype State = State(key: Option<Zset>, calls: map<Token, Held>, now: int)

  const Start: State := State(None, map[], 0)

  /** Declared holds lie between `lo` and `hi`. */
  predicate Holds(lo: int, hi: int) {
    0 < lo <= hi <= MAX_HOLD
  }

  predicate Enabled(s: State, lo: int, hi: int, e: Event) {
    && s.now <= e.now
    && match e
       case Ask(_, token, hold) => lo <= hold <= hi && token !in s.calls
       case End(_, token, _) => token in s.calls && !s.calls[token].ended
  }

  function Step(cap: nat, s: State, e: Event): State
    requires e.End? ==> e.token in s.calls
  {
    match e
    case Ask(now, token, hold) =>
      var (key, granted) := Acquire(s.key, now, cap, hold + LEASE_MARGIN, token);
      State(key, if granted then s.calls[token := Held(now, hold, false, false)] else s.calls, now)
    case End(now, token, delivered) =>
      State(if delivered then Release(s.key, now, token) else s.key,
            s.calls[token := s.calls[token].(ended := true, released := delivered)],
            now)
  }

  /** `s` is reached by the events, in order. */
  ghost predicate Reaches(cap: nat, lo: int, hi: int, events: seq<Event>, s: State) {
    if events == [] then s == Start
    else
      var init, e := events[..|events| - 1], events[|events| - 1];
      exists p :: Reaches(cap, lo, hi, init, p) && Enabled(p, lo, hi, e) && s == Step(cap, p, e)
  }

  /** Calls that run within the hold they declared. */
  function Running(calls: map<Token, Held>, t: int): set<Token> {
    set k | k in calls && !calls[k].ended && t < calls[k].start + calls[k].hold
  }

  /** Leases that were granted, not given back, and have not lapsed. */
  function LiveLeases(calls: map<Token, Held>, t: int): map<Token, int> {
    map k | k in calls && !calls[k].released && t < LapsesAt(calls[k]) :: LapsesAt(calls[k])
  }

  function LapsesAt(c: Held): int {
    c.start + c.hold + LEASE_MARGIN
  }

  // ---- What every run keeps ----

  /** Every stored lease is one that was granted and not given back; there are at most `cap`. */
  ghost predicate Backed(cap: nat, s: State) {
    s.key.Some? ==> (
      && |s.key.value.leases| <= cap
      && forall k :: k in s.key.value.leases ==>
           k in s.calls && !s.calls[k].released && s.key.value.leases[k] == LapsesAt(s.calls[k]))
  }

  /**
    For `slack` milliseconds past its declared hold every lease not given back
    is stored, under a key that outlives it.
  */
  ghost predicate Kept(s: State, slack: int) {
    forall k :: k in s.calls && !s.calls[k].released && s.now < s.calls[k].start + s.calls[k].hold + slack ==>
      s.key.Some? && k in s.key.value.leases && s.key.value.expiresAt >= s.calls[k].start + s.calls[k].hold + slack
  }

  ghost predicate Bounds(s: State, lo: int, hi: int) {
    forall k :: k in s.calls ==>
      lo <= s.calls[k].hold <= hi && s.calls[k].start <= s.now && (s.calls[k].released ==> s.calls[k].ended)
  }

  /** When the key's deadline cannot come too early. */
  predicate Outlives(cap: nat, lo: int, hi: int, slack: int) {
    cap == 1 || hi + slack <= 2 * (lo + LEASE_MARGIN)
  }

  ghost predicate Inv(cap: nat, lo: int, hi: int, slack: int, s: State) {
    && Backed(cap, s)
    && Bounds(s, lo, hi)
    && (Outlives(cap, lo, hi, slack) ==> Kept(s, slack))
  }

  lemma NoMember(m: map<Token, int>)
    requires |m| == 0
    ensures m == map[]
  {
    assert |m.Keys| == 0;
  }

  lemma PrunedIsSmaller(cap: nat, s: State, now: int)
    requires Backed(cap, s)
    ensures |Pruned(s.key, now)| <= cap
  {
    var live := Pruned(s.key, now);
    if Visible(s.key, now).Some? {
      SubsetSize(live.Keys, s.key.value.leases.Keys);
      assert |live| == |live.Keys| && |s.key.value.leases| == |s.key.value.leases.Keys|;
    }
  }

  /** A lease that is kept survives the pruning. */
  lemma KeptSurvives(s: State, slack: int, now: int, k: Token)
    requires Kept(s, slack) && slack <= LEASE_MARGIN && s.now <= now
    requires s.key.Some? ==> forall j :: j in s.key.value.leases ==> j in s.calls && s.key.value.leases[j] == LapsesAt(s.calls[j])
    requires k in s.calls && !s.calls[k].released && now < s.calls[k].start + s.calls[k].hold + slack
    ensures k in Pruned(s.key, now)
  {
  }

  lemma AskKeepsBacked(cap: nat, s: State, e: Event)
    requires Backed(cap, s) && e.Ask? && e.token !in s.calls
    ensures Backed(cap, Step(cap, s, e))
  {
    PrunedIsSmaller(cap, s, e.now);
    var live := Pruned(s.key, e.now);
    if |live| < cap {
      var leases := live[e.token := e.now + (e.hold + LEASE_MARGIN)];
      assert leases.Keys == live.Keys + {e.token};
      assert |leases| == |leases.Keys| && |live| == |live.Keys|;
    }
  }

  /** With one slot only, a call is let through when nothing else is kept. */
  lemma AskKeepsKept(cap: nat, lo: int, hi: int, slack: int, s: State, e: Event)
    requires Holds(lo, hi) && 0 <= slack <= LEASE_MARGIN && Outlives(cap, lo, hi, slack)
    requires Backed(cap, s) && Bounds(s, lo, hi) && Kept(s, slack) && Enabled(s, lo, hi, e) && e.Ask?
    ensures Kept(Step(cap, s, e), slack)
  {
    var live := Pruned(s.key, e.now);
    var s' := Step(cap, s, e);
    if cap == 1 && |live| < cap {
      NoMember(live);
    }
    forall k | k in s'.calls && !s'.calls[k].released && e.now < s'.calls[k].start + s'.calls[k].hold + slack
      ensures s'.key.Some? && k in s'.key.value.leases
      ensures s'.key.value.expiresAt >= s'.calls[k].start + s'.calls[k].hold + slack
    {
      if k in s.calls {
        KeptSurvives(s, slack, e.now, k);
      }
    }
  }

  lemma AskKeeps(cap: nat, lo: int, hi: int, slack: int, s: State, e: Event)
    requires Holds(lo, hi) && 0 <= slack <= LEASE_MARGIN
    requires Inv(cap, lo, hi, slack, s) && Enabled(s, lo, hi, e) && e.Ask?
    ensures Inv(cap, lo, hi, slack, Step(cap, s, e))
  {
    AskKeepsBacked(cap, s, e);
    if Outlives(cap, lo, hi, slack) {
      AskKeepsKept(cap, lo, hi, slack, s, e);
    }
  }

  lemma EndKeepsBacked(cap: nat, s: State, e: Event)
    requires Backed(cap, s) && e.End? && e.token in s.calls
    ensures Backed(cap, Step(cap, s, e))
  {
    var s' := Step(cap, s, e);
    if e.delivered && s'.key.Some? {
      var left := s.key.value.leases - {e.token};
      SubsetSize(left.Keys, s.key.value.leases.Keys);
      assert |left| == |left.Keys| && |s.key.value.leases| == |s.key.value.leases.Keys|;
    }
  }

  lemma EndKeepsKept(cap: nat, s: State, slack: int, e: Event)
    requires 0 <= slack <= LEASE_MARGIN && Backed(cap, s) && Kept(s, slack)
    requires s.now <= e.now && e.End? && e.token in s.calls && !s.calls[e.token].released
    ensures Kept(Step(cap, s, e), slack)
  {
    var s' := Step(cap, s, e);
    forall k | k in s'.calls && !s'.calls[k].released && e.now < s'.calls[k].start + s'.calls[k].hold + slack
      ensures s'.key.Some? && k in s'.key.value.leases
      ensures s'.key.value.expiresAt >= s'.calls[k].start + s'.calls[k].hold + slack
    {
      KeptSurvives(s, slack, e.now, k);
      if e.delivered {
        assert k in s.key.value.leases - {e.token};
      }
    }
  }

  lemma EndKeeps(cap: nat, lo: int, hi: int, slack: int, s: State, e: Event)
    requires Holds(lo, hi) && 0 <= slack <= LEASE_MARGIN
    requires Inv(cap, lo, hi, slack, s) && Enabled(s, lo, hi, e) && e.End?
    ensures Inv(cap, lo, hi, slack, Step(cap, s, e))
  {
    EndKeepsBacked(cap, s, e);
    if Outlives(cap, lo, hi, slack) {
      EndKeepsKept(cap, s, slack, e);
    }
  }

  lemma {:induction false} RunKeeps(cap: nat, lo: int, hi: int, slack: int, events: seq<Event>, s: State)
    requires Holds(lo, hi) && 0 <= slack <= LEASE_MARGIN && Reaches(cap, lo, hi, events, s)
    ensures Inv(cap, lo, hi, slack, s)
  {
    if events != [] {
      var init, e := events[..|events| - 1], events[|events| - 1];
      var p :| Reaches(cap, lo, hi, init, p) && Enabled(p, lo, hi, e) && s == Step(cap, p, e);
      RunKeeps(cap, lo, hi, slack, init, p);
      if e.Ask? {
        AskKeeps(cap, lo, hi, slack, p, e);
      } else {
        EndKeeps(cap, lo, hi, slack, p, e);
      }
    }
  }

  // ---- The key-level expiry ----

  /** From `s` on, with no further event, no lease that is still live is ever missing. */
  ghost predicate NoLiveLeaseDropped(s: State) {
    forall t :: s.now <= t ==> Pruned(s.key, t) == LiveLeases(s.calls, t)
  }

  ghost predicate NeverDrops(cap: nat, lo: int, hi: int) {
    forall events, s :: Reaches(cap, lo, hi, events, s) ==> NoLiveLeaseDropped(s)
  }

  lemma RunDropsNothing(cap: nat, lo: int, hi: int, events: seq<Event>, s: State)
    requires Holds(lo, hi) && Outlives(cap, lo, hi, LEASE_MARGIN) && Reaches(cap, lo, hi, events, s)
    ensures NoLiveLeaseDropped(s)
  {
    RunKeeps(cap, lo, hi, LEASE_MARGIN, events, s);
    forall t | s.now <= t
      ensures Pruned(s.key, t) == LiveLeases(s.calls, t)
    {
      forall k | k in LiveLeases(s.calls, t)
        ensures k in Pruned(s.key, t)
      {
        KeptSurvives(s, LEASE_MARGIN, t, k);
      }
    }
  }

  /** The long call first, then a short one: the short one sets the key's deadline. */
  function LongThenShort(lo: int, hi: int): seq<Event> {
    [Ask(0, 0, hi), Ask(0, 1, lo)]
  }

  function AfterLongThenShort(lo: int, hi: int): State {
    State(Some(Zset(map[0 := hi + LEASE_MARGIN, 1 := lo + LEASE_MARGIN], (lo + LEASE_MARGIN) * 2)),
          map[0 := Held(0, hi, false, false), 1 := Held(0, lo, false, false)],
          0)
  }

  lemma ReachesThen(cap: nat, lo: int, hi: int, events: seq<Event>, s: State, e: Event)
    requires Reaches(cap, lo, hi, events, s) && Enabled(s, lo, hi, e)
    ensures Reaches(cap, lo, hi, events + [e], Step(cap, s, e))
  {
    assert (events + [e])[..|events|] == events;
  }

  function AfterLong(hi: int): State {
    State(Some(Zset(map[0 := hi + LEASE_MARGIN], (hi + LEASE_MARGIN) * 2)), map[0 := Held(0, hi, false, false)], 0)
  }

  lemma LongRuns(cap: nat, lo: int, hi: int)
    requires Holds(lo, hi) && cap >= 2
    ensures Reaches(cap, lo, hi, [Ask(0, 0, hi)], AfterLong(hi))
  {
    var a := Ask(0, 0, hi);
    assert Pruned(None, 0) == map[];
    assert Step(cap, Start, a) == AfterLong(hi);
    assert Reaches(cap, lo, hi, [], Start);
    ReachesThen(cap, lo, hi, [], Start, a);
    assert [] + [a] == [a];
  }

  lemma ShortSteps(cap: nat, lo: int, hi: int)
    requires Holds(lo, hi) && cap >= 2
    ensures Step(cap, AfterLong(hi), Ask(0, 1, lo)) == AfterLongThenShort(lo, hi)
  {
    var live := map[0 := hi + LEASE_MARGIN];
    assert Pruned(AfterLong(hi).key, 0) == live;
    assert live.Keys == {0} && |live| == |live.Keys|;
  }

  lemma LongThenShortRuns(cap: nat, lo: int, hi: int)
    requires Holds(lo, hi) && cap >= 2
    ensures Reaches(cap, lo, hi, LongThenShort(lo, hi), AfterLongThenShort(lo, hi))
  {
    LongRuns(cap, lo, hi);
    ShortSteps(cap, lo, hi);
    ReachesThen(cap, lo, hi, [Ask(0, 0, hi)], AfterLong(hi), Ask(0, 1, lo));
    assert [Ask(0, 0, hi)] + [Ask(0, 1, lo)] == LongThenShort(lo, hi);
  }

  /**
    The key's expiry never takes a live lease with it exactly when the longest
    lease is at most twice the shortest (or there is only one slot).
  */
  lemma ExpiryIsHarmlessIff(cap: nat, lo: int, hi: int)
    requires Holds(lo, hi) && cap >= 1
    ensures NeverDrops(cap, lo, hi) <==> cap == 1 || hi + LEASE_MARGIN <= 2 * (lo + LEASE_MARGIN)
  {
    if Outlives(cap, lo, hi, LEASE_MARGIN) {
      forall events, s | Reaches(cap, lo, hi, events, s)
        ensures NoLiveLeaseDropped(s)
      {
        RunDropsNothing(cap, lo, hi, events, s);
      }
    } else {
      LongThenShortRuns(cap, lo, hi);
      var s := AfterLongThenShort(lo, hi);
      var t := 2 * (lo + LEASE_MARGIN);
      assert Pruned(s.key, t) == map[];
      assert 0 in LiveLeases(s.calls, t);
      assert !NoLiveLeaseDropped(s);
    }
  }

  /** Then the script decides by the leases that are live, and by nothing else. */
  lemma GrantedIffBelowCap(cap: nat, lo: int, hi: int, events: seq<Event>, s: State, e: Event)
    requires Holds(lo, hi) && Outlives(cap, lo, hi, LEASE_MARGIN)
    requires Reaches(cap, lo, hi, events, s) && e.Ask? && Enabled(s, lo, hi, e)
    ensures e.token in Step(cap, s, e).calls <==> |LiveLeases(s.calls, e.now)| < cap
  {
    RunDropsNothing(cap, lo, hi, events, s);
  }

  /** Whatever the holds, a refusal is backed by `cap` leases that are live: a crashed holder's slot comes back. */
  lemma RefusalIsJustified(cap: nat, lo: int, hi: int, events: seq<Event>, s: State, e: Event)
    requires Holds(lo, hi) && Reaches(cap, lo, hi, events, s) && e.Ask? && Enabled(s, lo, hi, e)
    requires e.token !in Step(cap, s, e).calls
    ensures |LiveLeases(s.calls, e.now)| >= cap
  {
    RunKeeps(cap, lo, hi, 0, events, s);
    var live, all := Pruned(s.key, e.now), LiveLeases(s.calls, e.now);
    SubsetSize(live.Keys, all.Keys);
    assert |live| == |live.Keys| && |all| == |all.Keys|;
  }

  // ---- The concurrency bound ----

  ghost predicate NeverOverruns(cap: nat, lo: int, hi: int) {
    forall events, s, t :: Reaches(cap, lo, hi, events, s) && s.now <= t ==> |Running(s.calls, t)| <= cap
  }

  lemma RunningAreStored(cap: nat, lo: int, hi: int, events: seq<Event>, s: State, t: int)
    requires Holds(lo, hi) && Outlives(cap, lo, hi, 0) && Reaches(cap, lo, hi, events, s) && s.now <= t
    ensures |Running(s.calls, t)| <= cap
  {
    RunKeeps(cap, lo, hi, 0, events, s);
    var running := Running(s.calls, t);
    if k :| k in running {
      forall j | j in running
        ensures s.key.Some? && j in s.key.value.leases
      {
      }
      SubsetSize(running, s.key.value.leases.Keys);
      assert |s.key.value.leases| == |s.key.value.leases.Keys|;
    }
  }

  /** The key holds `n` leases beyond `t`, and with them `n + 1` calls run at `t`. */
  ghost predicate Overrunning(s: State, t: int, n: nat) {
    && s.now <= t
    && |Running(s.calls, t)| == n + 1
    && (forall k :: k in s.calls ==> k < n + 2)
    && |Pruned(s.key, t)| == n
    && (forall k :: k in Pruned(s.key, t) ==> k < n + 2)
  }

  lemma OneMore(cap: nat, lo: int, hi: int, s: State, t: int, n: nat)
    requires Holds(lo, hi) && n < cap && Overrunning(s, t, n)
    ensures var s' := Step(cap, s, Ask(t, n + 2, hi)); Overrunning(s', t, n + 1)
  {
    var live := Pruned(s.key, t);
    var s' := Step(cap, s, Ask(t, n + 2, hi));
    var leases := live[n + 2 := t + (hi + LEASE_MARGIN)];
    assert s'.key == Some(Zset(leases, t + (hi + LEASE_MARGIN) * 2));
    assert Pruned(s'.key, t) == leases;
    assert Running(s'.calls, t) == Running(s.calls, t) + {n + 2};
    assert leases.Keys == live.Keys + {n + 2};
    assert |live| == |live.Keys| && |leases| == |leases.Keys|;
  }

  lemma OverrunStarts(lo: int, hi: int)
    requires Holds(lo, hi) && hi > 2 * (lo + LEASE_MARGIN)
    ensures Overrunning(AfterLongThenShort(lo, hi), 2 * (lo + LEASE_MARGIN), 0)
  {
    var s, t := AfterLongThenShort(lo, hi), 2 * (lo + LEASE_MARGIN);
    assert Running(s.calls, t) == {0};
    assert Pruned(s.key, t) == map[];
  }

  /** Once the key is gone, `n` more calls are let through beside the long one. */
  lemma {:induction false} Overrun(cap: nat, lo: int, hi: int, n: nat) returns (events: seq<Event>, s: State)
    requires Holds(lo, hi) && cap >= 2 && hi > 2 * (lo + LEASE_MARGIN) && n <= cap
    ensures Reaches(cap, lo, hi, events, s)
    ensures Overrunning(s, 2 * (lo + LEASE_MARGIN), n)
  {
    var t := 2 * (lo + LEASE_MARGIN);
    if n == 0 {
      LongThenShortRuns(cap, lo, hi);
      OverrunStarts(lo, hi);
      events, s := LongThenShort(lo, hi), AfterLongThenShort(lo, hi);
    } else {
      var before, p := Overrun(cap, lo, hi, n - 1);
      var e := Ask(t, n + 1, hi);
      ReachesThen(cap, lo, hi, before, p, e);
      OneMore(cap, lo, hi, p, t, n - 1);
      events, s := before + [e], Step(cap, p, e);
    }
  }

  /**
    No more than `cap` calls run within their declared hold, in any run,
    exactly when the longest hold is at most twice the shortest lease (or there
    is only one slot).
  */
  lemma ConcurrencyIsBoundedIff(cap: nat, lo: int, hi: int)
    requires Holds(lo, hi) && cap >= 1
    ensures NeverOverruns(cap, lo, hi) <==> cap == 1 || hi <= 2 * (lo + LEASE_MARGIN)
  {
    if Outlives(cap, lo, hi, 0) {
      forall events, s, t | Reaches(cap, lo, hi, events, s) && s.now <= t
        ensures |Running(s.calls, t)| <= cap
      {
        RunningAreStored(cap, lo, hi, events, s, t);
      }
    } else {
      var events, s := Overrun(cap, lo, hi, cap);
      assert |Running(s.calls, 2 * (lo + LEASE_MARGIN))| == cap + 1;
    }
  }
}
