/**
  The gate in front of the LLM: one semaphore key and one bucket key per
  company, on a Redis server that may be out of reach at any call.
*/
module LlmGate {
  import opened Wrappers
  import Semaphore
  import TokenBucket

  type Company = nat

  datatype LlmLimits = LlmLimits(maxConcurrency: int, ratePerSec: real, burst: int)
  {
    predicate Valid() {
      maxConcurrency >= 1 && ratePerSec > 0.0 && burst >= 1
    }

    function Bucket(): TokenBucket.Limits {
      TokenBucket.Limits(ratePerSec, burst)
    }
  }

  datatype Error = InvalidArgument

  /** The LLM keys of a Redis server, and its clock. */
  class Server {
    var now: int
    var sems: map<Company, Semaphore.Zset>
    var buckets: map<Company, TokenBucket.Bucket>

    constructor (now: int)
      ensures this.now == now && sems == map[] && buckets == map[]
    {
      this.now := now;
      sems := map[];
      buckets := map[];
    }

    ghost function Sem(c: Company): Option<Semaphore.Zset>
      reads this
    {
      if c in sems then Some(sems[c]) else None
    }

    ghost function Bucket(c: Company): Option<TokenBucket.Bucket>
      reads this
    {
      if c in buckets then Some(buckets[c]) else None
    }

    /** The key of one company is overwritten; everything else stays. */
    twostate predicate OnlySem(c: Company)
      reads this
    {
      && now == old(now)
      && buckets == old(buckets)
      && forall d :: d != c ==> Sem(d) == old(Sem(d))
    }

    twostate predicate OnlyBucket(c: Company)
      reads this
    {
      && now == old(now)
      && sems == old(sems)
      && forall d :: d != c ==> Bucket(d) == old(Bucket(d))
    }

    method PutSem(c: Company, z: Option<Semaphore.Zset>)
      modifies this`sems
      ensures OnlySem(c) && Sem(c) == z
    {
      sems := if z.None? then sems - {c} else sems[c := z.value];
    }

    /** Prune, count, add, set the deadline. 1: let through, 0: at capacity, -1: no answer. */
    method SemAcquire(c: Company, cap: nat, ttl: int, token: Semaphore.Token, fate: Fate) returns (r: int)
      modifies this`sems
      ensures OnlySem(c)
      ensures fate.Unreached? ==> sems == old(sems)
      ensures !fate.Unreached? ==> Sem(c) == Semaphore.Acquire(old(Sem(c)), now, cap, ttl, token).0
      ensures r == if !fate.Answered? then -1 else if Semaphore.Acquire(old(Sem(c)), now, cap, ttl, token).1 then 1 else 0
    {
      if fate.Unreached? {
        return -1;
      }
      var leases, deadline := map[], None;
      if c in sems && now < sems[c].expiresAt {
        leases, deadline := sems[c].leases, Some(sems[c].expiresAt);
      }
      var clock := now;
      var live := map t | t in leases && leases[t] > clock :: leases[t];
      assert live == Semaphore.Pruned(Sem(c), now);
      if |live| >= cap {
        PutSem(c, if deadline.None? then None else Semaphore.Stored(live, deadline.value));
        r := 0;
      } else {
        PutSem(c, Some(Semaphore.Zset(live[token := clock + ttl], clock + ttl * 2)));
        r := 1;
      }
      if fate.ReplyLost? {
        r := -1;
      }
    }

    method SemRelease(c: Company, token: Semaphore.Token, fate: Fate)
      modifies this`sems
      ensures OnlySem(c)
      ensures Sem(c) == if fate.Unreached? then old(Sem(c)) else Semaphore.Release(old(Sem(c)), now, token)
    {
      if fate.Unreached? {
        return;
      }
      if c in sems && now < sems[c].expiresAt {
        PutSem(c, Semaphore.Stored(sems[c].leases - {token}, sems[c].expiresAt));
      } else {
        PutSem(c, None);
      }
    }

    method TokenBucketTake(c: Company, l: TokenBucket.Limits, cost: nat, fate: Fate) returns (r: int)
      requires l.Valid()
      modifies this`buckets
      ensures OnlyBucket(c)
      ensures fate.Unreached? ==> Bucket(c) == old(Bucket(c))
      ensures !fate.Unreached? ==> Bucket(c) == Some(TokenBucket.Take(l, old(Bucket(c)), TokenBucket.Call(now, cost)).0)
      ensures r == if !fate.Answered? then -1 else if TokenBucket.Take(l, old(Bucket(c)), TokenBucket.Call(now, cost)).1 then 1 else 0
    {
      if fate.Unreached? {
        return -1;
      }
      var tokens, ts := l.burst as real, now;
      if c in buckets && now < buckets[c].expiresAt {
        tokens, ts := buckets[c].tokens, buckets[c].ts;
      }
      var delta := now - ts;
      if delta < 0 {
        delta := 0;
      }
      tokens := TokenBucket.MinReal(l.burst as real, tokens + TokenBucket.Inflow(l.rate, delta));
      r := 0;
      if tokens >= cost as real {
        tokens := tokens - cost as real;
        r := 1;
      }
      buckets := buckets[c := TokenBucket.Bucket(tokens, now, now + TokenBucket.KeyTtl(l))];
      if fate.ReplyLost? {
        r := -1;
      }
    }
  }

  /** A slot that is given back once. A lease with no token gives back nothing. */
  class LlmLease {
    var company: Company
    var token: Option<Semaphore.Token>

    constructor (company: Company, token: Option<Semaphore.Token>)
      ensures this.company == company && this.token == token
    {
      this.company := company;
      this.token := token;
    }

    predicate HoldsSlot()
      reads this
    {
      token.Some?
    }

    /** Also what the destructor does. */
    method Release(server: Server, fate: Fate)
      modifies this`token, server`sems
      ensures !HoldsSlot()
      ensures server.OnlySem(company)
      ensures server.Sem(company) ==
              if old(token).None? || fate.Unreached? then old(server.Sem(company))
              else Semaphore.Release(old(server.Sem(company)), server.now, old(token).value)
    {
      if token.Some? {
        server.SemRelease(company, token.value, fate);
        token := None;
      }
    }

    /** Move assignment: the slot held so far is given back, the other one changes hands. */
    method MoveFrom(other: LlmLease, server: Server, fate: Fate)
      modifies this, other`token, server`sems
      ensures other == this ==> company == old(company) && token == old(token) && server.sems == old(server.sems)
      ensures other != this ==> !other.HoldsSlot() && company == old(other.company) && token == old(other.token)
      ensures server.OnlySem(old(company))
      ensures other != this ==>
                server.Sem(old(company)) ==
                if old(token).None? || fate.Unreached? then old(server.Sem(company))
                else Semaphore.Release(old(server.Sem(company)), server.now, old(token).value)
    {
      if other != this {
        Release(server, fate);
        company, token := other.company, other.token;
        other.token := None;
      }
    }
  }

  class LlmGate {
    const limits: LlmLimits

    ghost predicate Valid() {
      limits.Valid()
    }

    constructor (limits: LlmLimits)
      requires limits.Valid()
      ensures Valid() && this.limits == limits
    {
      this.limits := limits;
    }

    /** The bucket decides when it answers; without an answer the request goes ahead. */
    method AllowRate(server: Server, company: Company, fate: Fate) returns (ok: bool)
      requires Valid()
      modifies server`buckets
      ensures server.OnlyBucket(company)
      ensures fate.Unreached? ==> server.Bucket(company) == old(server.Bucket(company))
      ensures !fate.Unreached? ==>
                server.Bucket(company)
                == Some(TokenBucket.Take(limits.Bucket(), old(server.Bucket(company)), TokenBucket.Call(server.now, 1)).0)
      ensures ok <==>
              fate.Answered? ==> TokenBucket.Take(limits.Bucket(), old(server.Bucket(company)), TokenBucket.Call(server.now, 1)).1
    {
      var r := server.TokenBucketTake(company, limits.Bucket(), 1, fate);
      if r < 0 {
        return true;
      }
      ok := r == 1;
    }

    /**
      Err: the hold is outside (0, 24h], and nothing was touched. None: at
      capacity. A lease without a slot: Redis gave no answer.
    */
    method Acquire(server: Server, company: Company, maxHold: int, token: Semaphore.Token, fate: Fate)
      returns (r: Result<Option<LlmLease>, Error>)
      requires Valid()
      modifies server`sems
      ensures server.OnlySem(company)
      ensures r.Err? <==> maxHold <= 0 || maxHold > Semaphore.MAX_HOLD
      ensures r.Err? || fate.Unreached? ==> server.sems == old(server.sems)
      ensures r.Ok? && !fate.Unreached? ==>
                server.Sem(company) == Semaphore.Acquire(
                  old(server.Sem(company)), server.now, limits.maxConcurrency, maxHold + Semaphore.LEASE_MARGIN, token).0
      ensures r.Ok? && fate.Answered? ==>
                (r.value.Some? <==> Semaphore.Acquire(
                  old(server.Sem(company)), server.now, limits.maxConcurrency, maxHold + Semaphore.LEASE_MARGIN, token).1)
      ensures r.Ok? && !fate.Answered? ==> r.value.Some?
      ensures r.Ok? && r.value.Some? ==>
                && fresh(r.value.value)
                && (r.value.value.HoldsSlot() <==> fate.Answered?)
                && (fate.Answered? ==> r.value.value.token == Some(token) && r.value.value.company == company)
    {
      if maxHold <= 0 || maxHold > Semaphore.MAX_HOLD {
        return Err(InvalidArgument);
      }
      var answer := server.SemAcquire(company, limits.maxConcurrency, maxHold + Semaphore.LEASE_MARGIN, token, fate);
      if answer == 1 {
        var lease := new LlmLease(company, Some(token));
        return Ok(Some(lease));
      }
      if answer == 0 {
        return Ok(None);
      }
      var nothing := new LlmLease(company, None);
      return Ok(Some(nothing));
    }
  }

  /** What the gate's constructor accepts. */
  method Configure(limits: LlmLimits) returns (r: Result<LlmGate, Error>)
    ensures r.Ok? <==> limits.maxConcurrency >= 1 && limits.ratePerSec > 0.0 && limits.burst >= 1
    ensures r.Ok? ==> r.value.Valid() && r.value.limits == limits
  {
    if limits.maxConcurrency < 1 || limits.ratePerSec <= 0.0 || limits.burst < 1 {
      return Err(InvalidArgument);
    }
    var gate := new LlmGate(limits);
    return Ok(gate);
  }
}
