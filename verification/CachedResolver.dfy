/** The cached resolver as a program: read the clock, try Redis, validate against Postgres, else resolve and write back. */
module CachedResolver {
  import opened Wrappers
  import opened AclScope
  import opened AccessResolver
  import opened AccessCache
  import opened ReaderScope

  lemma RunThen(s: State, acts: seq<Action>, a: Action)
    requires s.history != []
    ensures Run(s, acts + [a]) == Step(Run(s, acts), a)
  {
    assert (acts + [a])[..|acts|] == acts;
  }

  /** What only grows along a run. */
  ghost predicate Later(s: State, s': State) {
    s.history <= s'.history && s.now <= s'.now && s.fills <= s'.fills
  }

  lemma {:induction false} RunIsLater(s: State, before: seq<Action>, after: seq<Action>)
    requires s.history != [] && before <= after
    ensures Later(Run(s, before), Run(s, after))
  {
    if before != after {
      var init := after[..|after| - 1];
      assert before <= init;
      RunIsLater(s, before, init);
    }
  }

  class Site {
    var st: State
    ghost const origin: State
    ghost var log: seq<Action>

    ghost predicate Valid()
      reads this
    {
      Init(origin) && st == Run(origin, log)
    }

    constructor (db: Db, now: int)
      ensures Valid() && log == [] && st == State([db], now, {}, map[])
    {
      var s := State([db], now, {}, map[]);
      st, origin, log := s, s, [];
    }

    method Do(a: Action)
      requires Valid()
      modifies this
      ensures Valid() && log == old(log) + [a] && st == Step(old(st), a) && Later(old(st), st)
    {
      RunThen(origin, log, a);
      RunIsLater(origin, log, log + [a]);
      st := Step(st, a);
      log := log + [a];
    }

    /** Other requests, administrators, late writes, evictions and the clock. */
    method Interfere()
      requires Valid()
      modifies this
      ensures Valid() && old(log) <= log && Later(old(st), st)
    {
      // The caller may rely on nothing beyond the postcondition.
    }

    lemma Safe()
      requires Valid()
      ensures Inv(st)
    {
      RunKeepsInv(origin, log);
    }
  }

  datatype Error = NotFound

  class CachedAccessResolver {
    const site: Site

    constructor (site: Site)
      ensures this.site == site
    {
      this.site := site;
    }

    /**
      The answer is exactly the units the user reads in a database state that
      was live during the call, at a clock reading taken during the call, or the
      time of a fill that happened in between.
    */
    method Resolve(key: Key) returns (r: Result<set<UnitId>, Error>, ghost live: seq<Action>, ghost clock: int)
      requires site.Valid()
      modifies site
      ensures site.Valid() && old(site.log) <= live <= site.log
      ensures var db := Run(site.origin, live).Live();
              if r.Ok? then key.user in db.scopeEpochs && r.value == db.ReaderOf(key.user).Resolve(key.root, clock)
              else key.user !in db.scopeEpochs
      ensures r.Ok? ==> old(site.st.now) <= clock <= Run(site.origin, live).now
      ensures r.Ok? ==> IsScopeOf(r.value, Run(site.origin, live).Live(), key.user, key.root, clock)
    {
      var now := site.st.now;
      site.Interfere();
      var hit;
      hit, live, clock := TryCache(key, now);
      if hit.Some? {
        ResolveIsScope(site.st.Live(), key.user, key.root, clock);
        return Ok(hit.value), live, clock;
      }
      site.Interfere();
      r, live, clock := ResolveAndFill(key, now);
      if r.Ok? {
        ResolveIsScope(Run(site.origin, live).Live(), key.user, key.root, clock);
      }
    }

    /** The fast path: unexpired by the clock reading, then stamped with the epochs that are live now. */
    method TryCache(key: Key, now: int) returns (hit: Option<set<UnitId>>, ghost live: seq<Action>, ghost clock: int)
      requires site.Valid() && now <= site.st.now
      modifies site
      ensures site.Valid() && old(site.log) <= live && live == site.log && Later(old(site.st), site.st)
      ensures hit.Some? ==> key.user in site.st.Live().scopeEpochs && now <= clock <= site.st.now
      ensures hit.Some? ==> hit.value == site.st.Live().ReaderOf(key.user).Resolve(key.root, clock)
    {
      hit, clock := None, now;
      var redisUp: bool := *;
      if redisUp && key in site.st.cache && FloorMs(now) < site.st.cache[key].untilMs {
        var e := site.st.cache[key];
        site.Safe();
        ghost var got := site.st;
        site.Interfere();
        var databaseUp: bool := *;
        if databaseUp && key.user in site.st.Live().scopeEpochs && e.epochs == site.st.Live().EpochsOf(key.user) {
          hit := Some(e.units);
          site.Safe();
          clock := EntryIsExact(got, site.st, key, e, now);
        }
      }
      live := site.log;
    }

    /** The authoritative resolve, cached unless less than a second would be left of it. */
    method ResolveAndFill(key: Key, now: int) returns (r: Result<set<UnitId>, Error>, ghost live: seq<Action>, ghost clock: int)
      requires site.Valid()
      modifies site
      ensures site.Valid() && old(site.log) <= live <= site.log
      ensures var s := Run(site.origin, live);
              if r.Ok? then key.user in s.Live().scopeEpochs && clock == s.now
                && r.value == s.Live().ReaderOf(key.user).Resolve(key.root, clock)
              else key.user !in s.Live().scopeEpochs
      ensures old(site.st.now) <= Run(site.origin, live).now
    {
      live, clock := site.log, site.st.now;
      if key.user !in site.st.Live().scopeEpochs { return Err(NotFound), live, clock; }
      var delay: nat := *;
      var e := MakeEntry(site.st.Live(), key, site.st.now, delay);
      var cacheUntil := CacheUntil(site.st.Live().ReaderOf(key.user), site.st.now, delay);
      site.Do(Fill(key, delay));
      site.Interfere();
      if (cacheUntil - now) / 1_000_000 > 0 {
        var redisUp: bool := *;
        if redisUp { site.Do(Land(key, e)); }
      }
      r := Ok(e.units);
    }
  }

  /** An entry read from the cache at `got` and validated at `live` is exact for some clock reading in between. */
  lemma EntryIsExact(got: State, live: State, key: Key, e: Entry, now: int) returns (clock: int)
    requires Inv(got) && Inv(live) && Later(got, live) && now <= got.now
    requires (key, e) in got.fills && FloorMs(now) < e.untilMs
    requires key.user in live.Live().scopeEpochs && e.epochs == live.Live().EpochsOf(key.user)
    ensures now <= clock <= live.now
    ensures e.units == live.Live().ReaderOf(key.user).Resolve(key.root, clock)
  {
    assert Justified(got, key, e);
    var i: nat, t: int, delay: nat :| MadeFrom(got, key, e, i, t, delay);
    assert live.history[i] == got.history[i];
    assert Ordered(live.history[i], live.Live());
    if t <= now {
      UnexpiredIsExact(got.history[i], key, t, delay, now);
      clock := now;
    } else {
      clock := t;
    }
  }
}
