/** The executor's per-tenant queue depths (workspace_executor.go:394-438). */
module TenantDepths {
  import opened Text

  type Job = nat

  type Depths = map<string, nat>

  function DepthOf(depths: Depths, key: string): nat {
    if key in depths then depths[key] else 0
  }

  /** adjustTenantQueueDepth for an already trimmed tenant: blank tenants are not counted, zero entries removed. */
  function Adjust(depths: Depths, key: string, delta: int): Depths {
    if key == "" || delta == 0 then depths
    else
      var next := DepthOf(depths, key) + delta;
      if next <= 0 then depths - {key} else depths[key := next]
  }

  /** No tenant may hold more than half the queue, but always one place. */
  function Share(capacity: nat): (r: nat)
    ensures if capacity < 2 then r == 1 else 2 * r <= capacity < 2 * r + 2
  {
    if capacity / 2 <= 0 then 1 else capacity / 2
  }

  predicate LimitExceeded(depths: Depths, key: string, capacity: nat) {
    key != "" && capacity > 0 && DepthOf(depths, key) + 1 > Share(capacity)
  }

  /** How many of the jobs belong to a tenant. */
  function CountOf(key: Job -> string, jobs: seq<Job>, tenant: string): nat {
    if jobs == [] then 0
    else CountOf(key, jobs[..|jobs| - 1], tenant) + if key(jobs[|jobs| - 1]) == tenant then 1 else 0
  }

  /** The map holds exactly the non-zero counts of the non-blank tenants. */
  ghost predicate Matches(depths: Depths, key: Job -> string, jobs: seq<Job>) {
    && "" !in depths
    && forall t :: t != "" ==>
        DepthOf(depths, t) == CountOf(key, jobs, t) && (t in depths <==> CountOf(key, jobs, t) > 0)
  }

  lemma {:induction false} CountAppend(key: Job -> string, jobs: seq<Job>, j: Job, tenant: string)
    ensures CountOf(key, jobs + [j], tenant) == CountOf(key, jobs, tenant) + if key(j) == tenant then 1 else 0
  {
    assert (jobs + [j])[..|jobs|] == jobs;
  }

  lemma {:induction false} CountPop(key: Job -> string, jobs: seq<Job>, tenant: string)
    requires jobs != []
    ensures CountOf(key, jobs, tenant) == CountOf(key, jobs[1..], tenant) + if key(jobs[0]) == tenant then 1 else 0
  {
    if |jobs| > 1 {
      CountPop(key, jobs[..|jobs| - 1], tenant);
      assert jobs[..|jobs| - 1][1..] == jobs[1..][..|jobs| - 2];
    }
  }

  lemma {:induction false} MatchesAppend(depths: Depths, key: Job -> string, jobs: seq<Job>, j: Job)
    requires Matches(depths, key, jobs)
    ensures Matches(Adjust(depths, key(j), 1), key, jobs + [j])
  {
    forall t | t != "" ensures CountOf(key, jobs + [j], t) == CountOf(key, jobs, t) + if key(j) == t then 1 else 0 {
      CountAppend(key, jobs, j, t);
    }
  }

  lemma {:induction false} MatchesPop(depths: Depths, key: Job -> string, jobs: seq<Job>)
    requires Matches(depths, key, jobs) && jobs != []
    ensures Matches(Adjust(depths, key(jobs[0]), -1), key, jobs[1..])
    ensures forall t :: CountOf(key, jobs[1..], t) <= CountOf(key, jobs, t)
  {
    forall t ensures CountOf(key, jobs, t) == CountOf(key, jobs[1..], t) + if key(jobs[0]) == t then 1 else 0 {
      CountPop(key, jobs, t);
    }
  }

  lemma {:induction false} MatchesUnappend(depths: Depths, key: Job -> string, jobs: seq<Job>, j: Job)
    requires Matches(depths, key, jobs + [j])
    ensures Matches(Adjust(depths, key(j), -1), key, jobs)
  {
    forall t ensures CountOf(key, jobs + [j], t) == CountOf(key, jobs, t) + if key(j) == t then 1 else 0 {
      CountAppend(key, jobs, j, t);
    }
  }

  /** The locked map, with the queue it counts; `key` is the trimmed tenant of each job. */
  class TenantQueueDepths {
    const key: Job -> string
    const capacity: nat
    var queuedByTenant: Depths
    ghost var jobs: seq<Job>

    /** The map holds exactly the non-zero counts of the queued jobs' non-blank tenants. */
    ghost predicate Valid()
      reads this
    {
      Matches(queuedByTenant, key, jobs)
    }

    constructor (key: Job -> string, capacity: nat)
      ensures Valid() && this.key == key && this.capacity == capacity && jobs == []
    {
      this.key, this.capacity := key, capacity;
      queuedByTenant, jobs := map[], [];
    }

    /** Adjusting one tenant's depth by `delta` counts any queue that differs in that many of the tenant's jobs. */
    method AdjustTenantQueueDepth(tenantId: string, delta: int, ghost after: seq<Job>)
      requires Valid()
      requires forall t :: t != "" ==>
                 CountOf(key, after, t) == CountOf(key, jobs, t) + if t == TrimSpace(tenantId) then delta else 0
      modifies this
      ensures Valid() && jobs == after
    {
      jobs := after;
      var tenant := TrimSpace(tenantId);
      if tenant == "" || delta == 0 {
        return;
      }
      var next := DepthOf(queuedByTenant, tenant) + delta;
      if next <= 0 {
        queuedByTenant := queuedByTenant - {tenant};
        return;
      }
      queuedByTenant := queuedByTenant[tenant := next];
    }

    /** A request is admitted. */
    method Join(tenantId: string, ghost j: Job)
      requires Valid() && key(j) == TrimSpace(tenantId)
      modifies this
      ensures Valid() && jobs == old(jobs) + [j]
    {
      forall t ensures CountOf(key, jobs + [j], t) == CountOf(key, jobs, t) + if key(j) == t then 1 else 0 {
        CountAppend(key, jobs, j, t);
      }
      AdjustTenantQueueDepth(tenantId, 1, jobs + [j]);
    }

    /** The oldest request leaves for a worker, or at shutdown. */
    method RemoveOldest(tenantId: string)
      requires Valid() && jobs != [] && key(jobs[0]) == TrimSpace(tenantId)
      modifies this
      ensures Valid() && jobs == old(jobs)[1..]
    {
      forall t ensures CountOf(key, jobs, t) == CountOf(key, jobs[1..], t) + if key(jobs[0]) == t then 1 else 0 {
        CountPop(key, jobs, t);
      }
      AdjustTenantQueueDepth(tenantId, -1, jobs[1..]);
    }

    /** Exceeded exactly when one more job of the tenant would pass its share of the queue. */
    method TenantQueueLimitExceeded(tenantId: string, ghost j: Job) returns (exceeded: bool)
      requires Valid() && key(j) == TrimSpace(tenantId)
      ensures exceeded <==> key(j) != "" && capacity > 0 && CountOf(key, jobs + [j], key(j)) > Share(capacity)
    {
      CountAppend(key, jobs, j, key(j));
      var tenant := TrimSpace(tenantId);
      if tenant == "" || capacity <= 0 {
        return false;
      }
      var most := capacity / 2;
      if most <= 0 {
        most := 1;
      }
      exceeded := DepthOf(queuedByTenant, tenant) + 1 > most;
    }
  }
}
