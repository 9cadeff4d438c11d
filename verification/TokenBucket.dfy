/**
  The token bucket script, over exact reals. Times are milliseconds of the one
  Redis clock. A key that has expired is gone at its deadline.
*/
module TokenBucket {
  import opened Wrappers

  /** The hash {t, ts} and the deadline of its key. */
  datatype Bucket = Bucket(tokens: real, ts: int, expiresAt: int)

  /** What the gate's constructor admits. */
  datatype Limits = Limits(rate: real, burst: int)
  {
    predicate Valid() {
      rate > 0.0 && burst >= 1
    }
  }

  datatype Call = Call(now: int, cost: nat)

  function Ceil(x: real): int {
    -((-x).Floor)
  }

  function KeyTtl(l: Limits): int
    requires l.Valid()
  {
    Ceil(l.burst as real / l.rate * 1000.0) + 1000
  }

  function MinReal(x: real, y: real): real {
    if x <= y then x else y
  }

  /** What flows in over `dt` milliseconds. */
  function Inflow(rate: real, dt: int): real {
    dt as real / 1000.0 * rate
  }

  /** The level before the call takes anything. */
  function Refilled(l: Limits, b: Option<Bucket>, now: int): real {
    match b
    case None => l.burst as real
    case Some(bucket) =>
      var delta := if now - bucket.ts < 0 then 0 else now - bucket.ts;
      MinReal(l.burst as real, bucket.tokens + Inflow(l.rate, delta))
  }

  /** The script on a key that is there, or is not. */
  function Script(l: Limits, b: Option<Bucket>, c: Call): (r: (Bucket, bool))
    requires l.Valid()
  {
    var tokens := Refilled(l, b, c.now);
    var allowed := tokens >= c.cost as real;
    (Bucket(if allowed then tokens - c.cost as real else tokens, c.now, c.now + KeyTtl(l)), allowed)
  }

  /** What Redis shows of the key at `now`. */
  function Visible(b: Option<Bucket>, now: int): Option<Bucket> {
    if b.Some? && now >= b.value.expiresAt then None else b
  }

  function Take(l: Limits, b: Option<Bucket>, c: Call): (Bucket, bool)
    requires l.Valid()
  {
    Script(l, Visible(b, c.now), c)
  }

  /** The bucket after a run of calls on a fresh key. */
  function After(l: Limits, calls: seq<Call>): Option<Bucket>
    requires l.Valid()
  {
    if calls == [] then None else Some(Take(l, After(l, calls[..|calls| - 1]), calls[|calls| - 1]).0)
  }

  /** The same with a key that never expires. */
  function AfterForever(l: Limits, calls: seq<Call>): Option<Bucket>
    requires l.Valid()
  {
    if calls == [] then None else Some(Script(l, AfterForever(l, calls[..|calls| - 1]), calls[|calls| - 1]).0)
  }

  function Allowed(l: Limits, calls: seq<Call>, k: nat): bool
    requires l.Valid() && k < |calls|
  {
    Take(l, After(l, calls[..k]), calls[k]).1
  }

  function AllowedForever(l: Limits, calls: seq<Call>, k: nat): bool
    requires l.Valid() && k < |calls|
  {
    Script(l, AfterForever(l, calls[..k]), calls[k]).1
  }

  // ---- Expiry is unobservable ----

  lemma CeilIsAbove(x: real)
    ensures Ceil(x) as real >= x
  {
  }

  lemma ScaledAbove(rate: real, b: real, delta: real)
    requires rate > 0.0 && delta >= b / rate * 1000.0
    ensures delta / 1000.0 * rate >= b
  {
    var x := b / rate;
    assert x * rate == b;
    assert delta / 1000.0 >= x;
    assert delta / 1000.0 * rate >= x * rate;
  }

  /** By the deadline of its key a bucket would have refilled completely. */
  lemma ExpiredIsFull(l: Limits, b: Bucket, now: int)
    requires l.Valid() && b.tokens >= 0.0 && b.expiresAt == b.ts + KeyTtl(l) && now >= b.expiresAt
    ensures Refilled(l, Some(b), now) == l.burst as real
  {
    CeilIsAbove(l.burst as real / l.rate * 1000.0);
    PositiveQuotient(l.burst as real, l.rate);
    var delta := now - b.ts;
    assert delta >= KeyTtl(l) > 0;
    ScaledAbove(l.rate, l.burst as real, delta as real);
  }

  lemma PositiveQuotient(x: real, y: real)
    requires x > 0.0 && y > 0.0
    ensures x / y > 0.0
  {
  }

  lemma InflowIs(rate: real, dt: int)
    ensures Inflow(rate, dt) == rate * dt as real / 1000.0
  {
  }

  lemma NonNegative(rate: real, dt: int)
    requires rate > 0.0 && dt >= 0
    ensures Inflow(rate, dt) >= 0.0
  {
  }

  /** A bucket holds between nothing and its burst, and its key lives a fixed time. */
  lemma {:induction false} LevelsAreBounded(l: Limits, calls: seq<Call>)
    requires l.Valid() && calls != []
    ensures AfterForever(l, calls).Some?
    ensures 0.0 <= AfterForever(l, calls).value.tokens <= l.burst as real
    ensures AfterForever(l, calls).value.ts == calls[|calls| - 1].now
    ensures AfterForever(l, calls).value.expiresAt == calls[|calls| - 1].now + KeyTtl(l)
  {
    var init, c := calls[..|calls| - 1], calls[|calls| - 1];
    if init != [] {
      LevelsAreBounded(l, init);
      var b := AfterForever(l, init).value;
      NonNegative(l.rate, if c.now - b.ts < 0 then 0 else c.now - b.ts);
    }
  }

  /** Whatever the calls, the expiring bucket is the never-expiring one. */
  lemma {:induction false} SameBucket(l: Limits, calls: seq<Call>)
    requires l.Valid()
    ensures After(l, calls) == AfterForever(l, calls)
  {
    if calls != [] {
      var init, c := calls[..|calls| - 1], calls[|calls| - 1];
      SameBucket(l, init);
      SameAnswer(l, init, c);
    }
  }

  lemma SameAnswer(l: Limits, before: seq<Call>, c: Call)
    requires l.Valid() && After(l, before) == AfterForever(l, before)
    ensures Take(l, After(l, before), c) == Script(l, AfterForever(l, before), c)
  {
    var b := After(l, before);
    if before != [] {
      LevelsAreBounded(l, before);
      if c.now >= b.value.expiresAt {
        ExpiredIsFull(l, b.value, c.now);
      }
    }
  }

  /** Key expiry is unobservable: every call gets the answer a never-expiring bucket gives. */
  lemma ExpiryIsUnobservable(l: Limits, calls: seq<Call>, k: nat)
    requires l.Valid() && k < |calls|
    ensures Allowed(l, calls, k) == AllowedForever(l, calls, k)
  {
    SameBucket(l, calls[..k]);
    SameAnswer(l, calls[..k], calls[k]);
  }

  // ---- The rate bound ----

  /** The clock never goes back. */
  predicate Monotone(calls: seq<Call>) {
    forall i, j :: 0 <= i <= j < |calls| ==> calls[i].now <= calls[j].now
  }

  /** Total cost admitted among calls i, ..., j - 1. */
  function Admitted(l: Limits, calls: seq<Call>, i: nat, j: nat): nat
    requires l.Valid() && i <= j <= |calls|
  {
    if i == j then 0
    else Admitted(l, calls, i, j - 1) + Charge(l, calls, j - 1)
  }

  lemma Distribute(rate: real, x: int, y: int)
    ensures Inflow(rate, x + y) == Inflow(rate, x) + Inflow(rate, y)
  {
    var a, b := x as real / 1000.0, y as real / 1000.0;
    assert (x + y) as real / 1000.0 == a + b;
    assert (a + b) * rate == a * rate + b * rate;
  }

  /** The level call `k` finds. */
  function Level(l: Limits, calls: seq<Call>, k: nat): real
    requires l.Valid() && k < |calls|
  {
    Refilled(l, AfterForever(l, calls[..k]), calls[k].now)
  }

  lemma AllowedByLevel(l: Limits, calls: seq<Call>, k: nat)
    requires l.Valid() && k < |calls|
    ensures Allowed(l, calls, k) <==> Level(l, calls, k) >= calls[k].cost as real
    ensures 0.0 <= Level(l, calls, k) <= l.burst as real
  {
    ExpiryIsUnobservable(l, calls, k);
    if k > 0 {
      LevelsAreBounded(l, calls[..k]);
      var ts := AfterForever(l, calls[..k]).value.ts;
      NonNegative(l.rate, if calls[k].now - ts < 0 then 0 else calls[k].now - ts);
    }
  }

  function Charge(l: Limits, calls: seq<Call>, k: nat): nat
    requires l.Valid() && k < |calls|
  {
    if Allowed(l, calls, k) then calls[k].cost else 0
  }

  lemma LevelStep(l: Limits, calls: seq<Call>, k: nat)
    requires l.Valid() && Monotone(calls) && k + 1 < |calls|
    ensures Level(l, calls, k + 1)
            == MinReal(l.burst as real,
                       Level(l, calls, k) - Charge(l, calls, k) as real + Inflow(l.rate, calls[k + 1].now - calls[k].now))
  {
    assert calls[..k + 1][..k] == calls[..k] && calls[..k + 1][k] == calls[k];
    ExpiryIsUnobservable(l, calls, k);
  }

  /** The room a stretch starting at call `i` leaves for call `k`. */
  function Room(l: Limits, calls: seq<Call>, i: nat, k: nat): real
    requires l.Valid() && i <= k < |calls|
  {
    l.burst as real + Inflow(l.rate, calls[k].now - calls[i].now) - Admitted(l, calls, i, k) as real
  }

  lemma RoomStep(l: Limits, calls: seq<Call>, i: nat, k: nat)
    requires l.Valid() && i <= k && k + 1 < |calls|
    ensures Room(l, calls, i, k + 1)
            == Room(l, calls, i, k) - Charge(l, calls, k) as real + Inflow(l.rate, calls[k + 1].now - calls[k].now)
  {
    Distribute(l.rate, calls[k].now - calls[i].now, calls[k + 1].now - calls[k].now);
  }

  /** From one call to the next both change alike, but the level stops at the burst. */
  lemma BothStep(l: Limits, calls: seq<Call>, i: nat, k: nat) returns (change: real)
    requires l.Valid() && Monotone(calls) && i <= k && k + 1 < |calls|
    ensures Level(l, calls, k + 1) == MinReal(l.burst as real, Level(l, calls, k) + change)
    ensures Room(l, calls, i, k + 1) == Room(l, calls, i, k) + change
  {
    change := Inflow(l.rate, calls[k + 1].now - calls[k].now) - Charge(l, calls, k) as real;
    RoomStep(l, calls, i, k);
    LevelStep(l, calls, k);
  }

  lemma RoomAtStart(l: Limits, calls: seq<Call>, k: nat)
    requires l.Valid() && k < |calls|
    ensures Room(l, calls, k, k) == l.burst as real
  {
    assert Inflow(l.rate, 0) == 0.0;
  }

  /** The level is below the room of every stretch, ... */
  lemma {:induction false} LevelIsBelowRoom(l: Limits, calls: seq<Call>, i: nat, k: nat)
    requires l.Valid() && Monotone(calls) && i <= k < |calls|
    ensures Level(l, calls, k) <= Room(l, calls, i, k)
    decreases k
  {
    if i == k {
      RoomAtStart(l, calls, k);
      AllowedByLevel(l, calls, k);
    } else {
      LevelIsBelowRoom(l, calls, i, k - 1);
      var change := BothStep(l, calls, i, k - 1);
    }
  }

  /** ... and is the room of one of them. */
  lemma {:induction false} LevelIsSomeRoom(l: Limits, calls: seq<Call>, k: nat) returns (i: nat)
    requires l.Valid() && Monotone(calls) && k < |calls|
    ensures i <= k && Level(l, calls, k) == Room(l, calls, i, k)
  {
    if k == 0 || Level(l, calls, k) == l.burst as real {
      RoomAtStart(l, calls, k);
      i := k;
    } else {
      i := LevelIsSomeRoom(l, calls, k - 1);
      var change := BothStep(l, calls, i, k - 1);
    }
  }

  /** So much in `dt` milliseconds is within burst + rate * dt / 1000. */
  predicate WithinRate(l: Limits, total: real, dt: int) {
    total <= l.burst as real + l.rate * dt as real / 1000.0
  }

  lemma WithinRateIff(l: Limits, total: real, dt: int)
    ensures WithinRate(l, total, dt) <==> total <= l.burst as real + Inflow(l.rate, dt)
  {
    InflowIs(l.rate, dt);
  }

  /** The stretch from call `i` to call `k`, with `k` in it, keeps the rate. */
  predicate Fits(l: Limits, calls: seq<Call>, i: nat, k: nat)
    requires l.Valid() && i <= k < |calls|
  {
    WithinRate(l, Admitted(l, calls, i, k) as real + calls[k].cost as real, calls[k].now - calls[i].now)
  }

  lemma FitsIffRoom(l: Limits, calls: seq<Call>, i: nat, k: nat)
    requires l.Valid() && i <= k < |calls|
    ensures Fits(l, calls, i, k) <==> calls[k].cost as real <= Room(l, calls, i, k)
  {
    FitsIff(l, calls, i, k, Admitted(l, calls, i, k) as real, calls[k].cost as real);
  }

  lemma FitsIff(l: Limits, calls: seq<Call>, i: nat, k: nat, admitted: real, cost: real)
    requires l.Valid() && i <= k < |calls|
    requires admitted == Admitted(l, calls, i, k) as real && cost == calls[k].cost as real
    ensures WithinRate(l, admitted + cost, calls[k].now - calls[i].now) <==> cost <= Room(l, calls, i, k)
  {
    WithinRateIff(l, admitted + cost, calls[k].now - calls[i].now);
  }

  lemma LevelFits(l: Limits, calls: seq<Call>, i: nat, k: nat)
    requires l.Valid() && Monotone(calls) && i <= k < |calls| && calls[k].cost as real <= Level(l, calls, k)
    ensures Fits(l, calls, i, k)
  {
    LevelIsBelowRoom(l, calls, i, k);
    FitsIffRoom(l, calls, i, k);
  }

  lemma SomeStretchIsFull(l: Limits, calls: seq<Call>, k: nat) returns (i: nat)
    requires l.Valid() && Monotone(calls) && k < |calls| && Level(l, calls, k) < calls[k].cost as real
    ensures i <= k && !Fits(l, calls, i, k)
  {
    i := LevelIsSomeRoom(l, calls, k);
    FitsIffRoom(l, calls, i, k);
  }

  /**
    What the script decides, without its state: a call is let through if and
    only if no stretch of calls ending in it goes over burst + rate * T / 1000.
  */
  lemma AllowedIffEveryStretchFits(l: Limits, calls: seq<Call>, k: nat)
    requires l.Valid() && Monotone(calls) && k < |calls|
    ensures Allowed(l, calls, k) <==> forall i: nat :: i <= k ==> Fits(l, calls, i, k)
  {
    AllowedByLevel(l, calls, k);
    if Allowed(l, calls, k) {
      forall i: nat | i <= k
        ensures Fits(l, calls, i, k)
      {
        LevelFits(l, calls, i, k);
      }
    } else {
      var i := SomeStretchIsFull(l, calls, k);
    }
  }

  lemma AdmittedWithin(l: Limits, calls: seq<Call>, i: nat, k: nat)
    requires l.Valid() && Monotone(calls) && i <= k < |calls|
    ensures Admitted(l, calls, i, k + 1) as real <= l.burst as real + Inflow(l.rate, calls[k].now - calls[i].now)
  {
    AllowedByLevel(l, calls, k);
    LevelIsBelowRoom(l, calls, i, k);
  }

  lemma InflowGrows(rate: real, dt: int, t: int)
    requires rate > 0.0 && dt <= t
    ensures Inflow(rate, dt) <= Inflow(rate, t)
  {
    Distribute(rate, dt, t - dt);
    NonNegative(rate, t - dt);
  }

  /** Over any stretch of calls within T milliseconds at most burst + rate * T / 1000 is admitted. */
  lemma RateIsBounded(l: Limits, calls: seq<Call>, i: nat, j: nat, t: nat)
    requires l.Valid() && Monotone(calls) && i < j <= |calls|
    requires calls[j - 1].now - calls[i].now <= t
    ensures Admitted(l, calls, i, j) as real <= l.burst as real + l.rate * t as real / 1000.0
  {
    InflowIs(l.rate, t);
    AdmittedWithin(l, calls, i, j - 1);
    InflowGrows(l.rate, calls[j - 1].now - calls[i].now, t);
  }
}
